/** What every run of the AtomicHashMap step system keeps. */
module AtomicHashMapProof {
  import opened Common
  import opened AtomicHashMap

  // ------------------------------------------------------------------------ probing

  function Pow2(e: nat): (p: nat)
    ensures p > 0
  {
    if e == 0 then 1 else 2 * Pow2(e - 1)
  }

  /** The anchor mask is one less than the least power of two that is not below the capacity. */
  lemma NextPowTwoIsLeast(n: nat) returns (e: nat)
    requires n > 0
    ensures NextPowTwo(n) == Pow2(e) && n <= Pow2(e) && (e > 0 ==> Pow2(e - 1) < n)
  {
    e := LeastFrom(0, n);
  }

  lemma {:induction false} LeastFrom(d: nat, n: nat) returns (e: nat)
    requires d > 0 ==> Pow2(d - 1) < n
    ensures PowTwoFrom(Pow2(d), n) == Pow2(e) && n <= Pow2(e) && (e > 0 ==> Pow2(e - 1) < n)
    decreases n - Pow2(d)
  {
    if Pow2(d) >= n {
      e := d;
    } else {
      assert Pow2(d + 1) == 2 * Pow2(d);
      e := LeastFrom(d + 1, n);
    }
  }

  /** Hash values below the capacity, and all when it is a power of two, anchor at their residue. */
  lemma AnchorIsResidue(hash: nat, capacity: nat, e: nat)
    requires capacity > 0 && (hash < capacity || capacity == Pow2(e))
    ensures Anchor(hash, capacity) == hash % capacity
  {
    var p := NextPowTwo(capacity);
    if hash < capacity {
      Small(hash, capacity);
      Small(hash, p);
    } else {
      OwnNextPowTwo(capacity, e);
    }
  }

  lemma Small(a: nat, b: nat)
    requires a < b
    ensures a % b == a
  {
  }

  lemma OwnNextPowTwo(capacity: nat, e: nat)
    requires capacity == Pow2(e)
    ensures NextPowTwo(capacity) == capacity
  {
    var d := NextPowTwoIsLeast(capacity);
    Pow2Grows(e, d);
    Pow2Grows(d, e);
    if d > 0 {
      Pow2Grows(d - 1, e);
    }
  }

  lemma {:induction false} Pow2Grows(a: nat, b: nat)
    ensures a < b <==> Pow2(a) < Pow2(b)
    decreases a + b
  {
    if a > 0 && b > 0 {
      Pow2Grows(a - 1, b - 1);
    }
  }

  /** From its anchor on a search comes to every cell just once, one after the other. */
  lemma ProbesVisitEachCellOnce(anchor: nat, capacity: nat, c: nat) returns (n: nat)
    requires anchor < capacity && c < capacity
    ensures n < capacity && Probe(anchor, capacity, n) == c
    ensures forall m: nat | m < capacity && Probe(anchor, capacity, m) == c :: m == n
    ensures Probe(anchor, capacity, 0) == anchor
    ensures n + 1 < capacity ==> Probe(anchor, capacity, n + 1) == (c + 1) % capacity
  {
    n := if anchor <= c then c - anchor else c + capacity - anchor;
  }

  // ------------------------------------------------------------------ probe paths

  /** A cell that a search for k leaves behind for good. */
  predicate Passed(c: Cell, k: nat) { c.Erased? || (c.Key? && c.key != k) }

  function ProbeCell(sub: SubMap, h: nat, n: nat): Cell
    requires n < |sub.cells|
  {
    sub.cells[Probe(Anchor(h, |sub.cells|), |sub.cells|, n)]
  }

  /** The first n cells of a key's probe path are passed. */
  ghost predicate PathOk(sub: SubMap, h: nat, k: nat, n: nat) {
    n <= |sub.cells| && forall i | 0 <= i < n :: Passed(ProbeCell(sub, h, i), k)
  }

  /** k cannot be in this array, now or later: every cell is passed, or the array is closed
      and the path ends at an empty cell. */
  ghost predicate FullAt(sub: SubMap, h: nat, k: nat, n: nat) {
    PathOk(sub, h, k, n) && (n == |sub.cells| || (sub.closed && ProbeCell(sub, h, n).Empty?))
  }

  ghost predicate FullFor(sub: SubMap, h: nat, k: nat) {
    exists n: nat :: FullAt(sub, h, k, n)
  }

  // -------------------------------------------------------------- how arrays evolve

  /** Keys may be erased, locked cells get keys, and empty cells are locked until closing. */
  predicate CellMono(c: Cell, c': Cell, closed: bool) {
    c' == c || (c.Key? && c'.Erased?) || (c.Locked? && c'.Key?) || (c.Empty? && !closed && c'.Locked?)
  }

  ghost predicate Mono(sub: SubMap, sub': SubMap) {
    && |sub'.cells| == |sub.cells| && (sub.closed ==> sub'.closed)
    && forall c | 0 <= c < |sub.cells| :: CellMono(sub.cells[c], sub'.cells[c], sub.closed)
  }

  lemma PathKept(sub: SubMap, sub': SubMap, h: nat, k: nat, n: nat)
    requires Mono(sub, sub') && PathOk(sub, h, k, n)
    ensures PathOk(sub', h, k, n)
  {
    forall i | 0 <= i < n ensures Passed(ProbeCell(sub', h, i), k) {
      assert Passed(ProbeCell(sub, h, i), k);
      assert CellMono(ProbeCell(sub, h, i), ProbeCell(sub', h, i), sub.closed);
    }
  }

  lemma FullKept(sub: SubMap, sub': SubMap, h: nat, k: nat)
    requires Mono(sub, sub') && FullFor(sub, h, k)
    ensures FullFor(sub', h, k)
  {
    var n: nat :| FullAt(sub, h, k, n);
    PathKept(sub, sub', h, k, n);
    assert n < |sub.cells| ==> CellMono(ProbeCell(sub, h, n), ProbeCell(sub', h, n), sub.closed);
    assert FullAt(sub', h, k, n);
  }

  // ------------------------------------------------------------------ the invariant

  /** k cannot be in any of the first m arrays. */
  ghost predicate Before(s: State, m: nat, k: nat)
    requires m <= |s.maps| && k < |s.hash|
  {
    forall i | 0 <= i < m :: FullFor(s.maps[i], s.hash[k], k)
  }

  /** Cell c of array m is the n-th on k's path, whose earlier cells and arrays are passed. */
  ghost predicate HomeAt(s: State, m: nat, k: nat, c: nat, n: nat) {
    && k < |s.hash| && m < |s.maps| && m < s.numMaps && n < |s.maps[m].cells|
    && Probe(Anchor(s.hash[k], |s.maps[m].cells|), |s.maps[m].cells|, n) == c
    && PathOk(s.maps[m], s.hash[k], k, n) && Before(s, m, k)
  }

  ghost predicate Home(s: State, m: nat, k: nat, c: nat) {
    exists n: nat :: HomeAt(s, m, k, c, n)
  }

  predicate Unlocking(pc: PC, s: State, m: nat, c: nat) {
    pc.InsUnlock? && pc.j.m == m && JobFits(s, pc.j) && Spot(s, pc.j) == c
  }

  ghost predicate CellOk(s: State, m: nat, c: nat)
    requires m < |s.maps| && c < |s.maps[m].cells|
  {
    match s.maps[m].cells[c]
    case Key(k) => Home(s, m, k, c)
    case Locked(t) => t < |s.threads| && Unlocking(s.threads[t], s, m, c)
    case _ => true
  }

  ghost predicate CellsOk(s: State) {
    forall m, c | 0 <= m < |s.maps| && 0 <= c < |s.maps[m].cells| :: CellOk(s, m, c)
  }

  predicate MayLock(pc: PC) { pc.InsTryLock? || pc.InsUnlock? }

  /** Counted in numPendingEntries_. */
  predicate Pending(pc: PC, m: nat) {
    && (pc.InsFullCheck? || pc.InsUnpendFull? || MayLock(pc) || pc.InsUnpendDone? || pc.InsUnpend?)
    && pc.j.m == m
  }

  ghost predicate SubOk(sub: SubMap) {
    && |sub.cells| > 0 && sub.pending == |sub.inside|
    && (sub.closed ==> sub.isFull != 0) && (sub.isFull == NO_PENDING_INSERTS ==> sub.closed)
  }

  ghost predicate SubsOk(s: State) {
    forall m | 0 <= m < |s.maps| :: SubOk(s.maps[m])
  }

  ghost predicate InsideOk(s: State) {
    forall m, t | 0 <= m < |s.maps| && 0 <= t < |s.threads| :: t in s.maps[m].inside <==> Pending(s.threads[t], m)
  }

  /** An insert at work: everything before its cell is passed for good. */
  ghost predicate InsertAt(s: State, j: Job) {
    && JobFits(s, j) && j.m <= j.next <= s.numMaps && j.m < s.numMaps
    && PathOk(s.maps[j.m], s.hash[j.k], j.k, j.n) && Before(s, j.m, j.k)
  }

  ghost predicate GrowAt(s: State, k: nat, next: nat) {
    k < |s.hash| && next <= s.numMaps <= |s.maps| && Before(s, next, k)
  }

  ghost predicate PcOk(s: State, t: nat, pc: PC) {
    if InInsert(pc) then
      && InsertAt(s, pc.j)
      && (pc.InsUnpendFull? || pc.InsSpin? || pc.InsSpinPending? ==> s.maps[pc.j.m].isFull != 0)
      && (pc.InsClose? || pc.InsReload? ==> s.maps[pc.j.m].closed)
      && (MayLock(pc) ==> !s.maps[pc.j.m].closed)
      && (pc.InsUnlock? ==> CellOf(s, pc.j) == Locked(t))
      && (pc.InsUnpend? || pc.InsWait? || pc.InsCompare? ==> !CellOf(s, pc.j).Empty?)
    else match pc
      case InsBegin(k) => k < |s.hash|
      case GrowLock(k, next) => GrowAt(s, k, next)
      case GrowStore(k, next) => GrowAt(s, k, next)
      case GrowPublish(k, next) => GrowAt(s, k, next)
      case GrowWait(k, next) => GrowAt(s, k, next)
      case FindCell(j) => JobFits(s, j) && j.m < s.numMaps && j.next <= s.numMaps
      case FindMaps(k) => k < |s.hash|
      case EraseBegin(k) => k < |s.hash|
      case EraseCell(j) => JobFits(s, j) && j.m < s.numMaps && j.next <= s.numMaps
      case EraseCas(j) => JobFits(s, j) && j.m < s.numMaps && j.next <= s.numMaps
      case _ => true
  }

  ghost predicate ThreadsOk(s: State) {
    forall t | 0 <= t < |s.threads| :: PcOk(s, t, s.threads[t])
  }

  predicate Builds(pc: PC) { pc.GrowStore? || pc.GrowPublish? }

  /** At most one array is being made, and all but it are published. */
  ghost predicate BuildOk(s: State) {
    && 0 < s.numMaps
    && (forall t | 0 <= t < |s.threads| :: Builds(s.threads[t]) <==> s.builder == Some(t))
    && match s.builder
       case None => !s.building && |s.maps| == s.numMaps
       case Some(t) =>
         && t < |s.threads|
         && (s.threads[t].GrowStore? ==> s.building && s.threads[t].next == |s.maps| == s.numMaps)
         && (s.threads[t].GrowPublish? ==> !s.building && s.threads[t].next + 1 == |s.maps| == s.numMaps + 1)
  }

  ghost predicate Inv(s: State) {
    BuildOk(s) && SubsOk(s) && InsideOk(s) && CellsOk(s) && ThreadsOk(s)
  }

  lemma InitInv(s: State)
    requires Init(s)
    ensures Inv(s)
  {
  }

  // ------------------------------------------------------------------- frame facts

  ghost predicate SubGentle(sub: SubMap, sub': SubMap, t: nat) {
    && Mono(sub, sub') && (sub.isFull != 0 ==> sub'.isFull != 0)
    && (sub'.closed && !sub.closed ==> sub.inside == {})
    && (forall u | u != t :: u in sub'.inside <==> u in sub.inside)
    && (forall c | 0 <= c < |sub.cells| && sub.cells[c].Locked? && sub.cells[c].holder != t :: sub'.cells[c] == sub.cells[c])
  }

  /** A step of thread t as the others see it. */
  ghost predicate Gentle(s: State, s': State, t: nat) {
    && s'.hash == s.hash && s.numMaps <= s'.numMaps && |s.maps| <= |s'.maps| && s'.numMaps <= |s'.maps|
    && |s'.threads| == |s.threads|
    && (forall u | 0 <= u < |s.threads| && u != t :: s'.threads[u] == s.threads[u])
    && (forall m | 0 <= m < |s.maps| :: SubGentle(s.maps[m], s'.maps[m], t))
  }

  lemma BeforeKept(s: State, s': State, t: nat, m: nat, k: nat)
    requires Gentle(s, s', t) && m <= |s.maps| && k < |s.hash| && Before(s, m, k)
    ensures Before(s', m, k)
  {
    forall i | 0 <= i < m ensures FullFor(s'.maps[i], s'.hash[k], k) {
      assert SubGentle(s.maps[i], s'.maps[i], t);
      FullKept(s.maps[i], s'.maps[i], s.hash[k], k);
    }
  }

  lemma InsertKept(s: State, s': State, t: nat, j: Job)
    requires Gentle(s, s', t) && InsertAt(s, j)
    ensures InsertAt(s', j) && Spot(s', j) == Spot(s, j)
  {
    assert SubGentle(s.maps[j.m], s'.maps[j.m], t);
    PathKept(s.maps[j.m], s'.maps[j.m], s.hash[j.k], j.k, j.n);
    BeforeKept(s, s', t, j.m, j.k);
  }

  lemma HomeKept(s: State, s': State, t: nat, m: nat, k: nat, c: nat)
    requires Gentle(s, s', t) && Home(s, m, k, c)
    ensures Home(s', m, k, c)
  {
    var n: nat :| HomeAt(s, m, k, c, n);
    assert SubGentle(s.maps[m], s'.maps[m], t);
    PathKept(s.maps[m], s'.maps[m], s.hash[k], k, n);
    BeforeKept(s, s', t, m, k);
    assert HomeAt(s', m, k, c, n);
  }

  lemma OtherThread(s: State, s': State, t: nat, u: nat)
    requires Inv(s) && Gentle(s, s', t) && u < |s.threads| && u != t
    ensures PcOk(s', u, s'.threads[u])
  {
    var pc := s.threads[u];
    assert PcOk(s, u, pc);
    if InInsert(pc) {
      InsertKept(s, s', t, pc.j);
      assert SubGentle(s.maps[pc.j.m], s'.maps[pc.j.m], t);
      assert Pending(pc, pc.j.m) ==> u in s.maps[pc.j.m].inside;
    } else if pc.GrowLock? || pc.GrowStore? || pc.GrowPublish? || pc.GrowWait? {
      BeforeKept(s, s', t, pc.next, pc.k);
    } else if pc.FindCell? || pc.EraseCell? || pc.EraseCas? {
      assert SubGentle(s.maps[pc.j.m], s'.maps[pc.j.m], t);
    }
  }

  lemma OtherThreads(s: State, s': State, t: nat)
    requires Inv(s) && Gentle(s, s', t) && t < |s.threads| && PcOk(s', t, s'.threads[t])
    ensures ThreadsOk(s')
  {
    forall u | 0 <= u < |s'.threads| ensures PcOk(s', u, s'.threads[u]) {
      if u != t {
        OtherThread(s, s', t, u);
      }
    }
  }

  /** A cell whose content did not change, unless it is t's own locked cell. */
  lemma CellKept(s: State, s': State, t: nat, m: nat, c: nat)
    requires Inv(s) && Gentle(s, s', t) && m < |s.maps| && c < |s.maps[m].cells| && c < |s'.maps[m].cells|
    requires s'.maps[m].cells[c] == s.maps[m].cells[c]
    requires s.maps[m].cells[c] == Locked(t) ==> t < |s'.threads| && Unlocking(s'.threads[t], s', m, c)
    ensures CellOk(s', m, c)
  {
    assert CellOk(s, m, c);
    match s.maps[m].cells[c]
    case Key(k) => HomeKept(s, s', t, m, k, c);
    case Locked(u) =>
      assert PcOk(s, u, s.threads[u]);
      if u != t {
        InsertKept(s, s', t, s.threads[u].j);
      }
    case _ =>
  }

  // ---------------------------------------------------------------- kinds of steps

  /** Only the thread's position changes. */
  lemma LocalStep(s: State, s': State, t: nat, pc: PC)
    requires Inv(s) && t < |s.threads| && s' == Goto(s, t, pc) && PcOk(s, t, pc)
    requires forall m | 0 <= m < |s.maps| :: Pending(pc, m) <==> Pending(s.threads[t], m)
    requires !Builds(pc) && !Builds(s.threads[t]) && !s.threads[t].InsUnlock?
    ensures Inv(s')
  {
    OtherThreads(s, s', t);
    CellsStay(s, s', t);
  }

  /** All cells keep their contents. */
  lemma CellsStay(s: State, s': State, t: nat)
    requires Inv(s) && Gentle(s, s', t) && t < |s.threads| && !s.threads[t].InsUnlock?
    requires forall m | 0 <= m < |s.maps| :: s'.maps[m].cells == s.maps[m].cells
    requires forall m | |s.maps| <= m < |s'.maps| :: forall c | 0 <= c < |s'.maps[m].cells| :: s'.maps[m].cells[c].Empty?
    ensures CellsOk(s')
  {
    forall m, c | 0 <= m < |s'.maps| && 0 <= c < |s'.maps[m].cells| ensures CellOk(s', m, c) {
      if m < |s.maps| {
        assert CellOk(s, m, c);
        CellKept(s, s', t, m, c);
      }
    }
  }

  /** The counters or the flag of array m change. */
  lemma CounterStep(s: State, s': State, t: nat, m: nat, sub: SubMap, pc: PC)
    requires Inv(s) && t < |s.threads| && m < |s.maps| && s' == Goto(SetMap(s, m, sub), t, pc)
    requires sub.cells == s.maps[m].cells && SubOk(sub) && SubGentle(s.maps[m], sub, t) && PcOk(s', t, pc)
    requires t in sub.inside <==> Pending(pc, m)
    requires forall i | 0 <= i < |s.maps| && i != m :: Pending(pc, i) <==> Pending(s.threads[t], i)
    requires !Builds(pc) && !Builds(s.threads[t]) && !s.threads[t].InsUnlock?
    ensures Inv(s')
  {
    assert Gentle(s, s', t);
    OtherThreads(s, s', t);
    CellsStay(s, s', t);
  }

  /** One cell changes. */
  lemma CellStep(s: State, s': State, t: nat, j: Job, cell: Cell, pc: PC)
    requires Inv(s) && t < |s.threads| && JobFits(s, j) && s' == Goto(SetCell(s, j, cell), t, pc)
    requires SubGentle(s.maps[j.m], s'.maps[j.m], t) && PcOk(s', t, pc)
    requires forall m | 0 <= m < |s.maps| :: Pending(pc, m) <==> Pending(s.threads[t], m)
    requires !Builds(pc) && !Builds(s.threads[t])
    requires s.threads[t].InsUnlock? ==> s.threads[t].j == j && !pc.InsUnlock?
    requires CellOk(s', j.m, Spot(s, j))
    ensures Inv(s')
  {
    assert Gentle(s, s', t);
    OtherThreads(s, s', t);
    OtherCells(s, s', t, j, cell, pc);
  }

  lemma OtherCells(s: State, s': State, t: nat, j: Job, cell: Cell, pc: PC)
    requires Inv(s) && Gentle(s, s', t) && t < |s.threads| && JobFits(s, j) && s' == Goto(SetCell(s, j, cell), t, pc)
    requires s.threads[t].InsUnlock? ==> s.threads[t].j == j && !pc.InsUnlock?
    requires CellOk(s', j.m, Spot(s, j))
    ensures CellsOk(s')
  {
    forall m, c | 0 <= m < |s'.maps| && 0 <= c < |s'.maps[m].cells| ensures CellOk(s', m, c) {
      assert CellOk(s, m, c);
      if m != j.m || c != Spot(s, j) {
        CellKept(s, s', t, m, c);
      }
    }
  }

  // -------------------------------------------------------------- inserting a key

  /** A passed cell extends the path; a whole path or an empty cell in a closed array fills. */
  lemma PathGrows(s: State, j: Job)
    requires InsertAt(s, j)
    ensures Passed(CellOf(s, j), j.k) ==> PathOk(s.maps[j.m], s.hash[j.k], j.k, j.n + 1)
    ensures Passed(CellOf(s, j), j.k) && j.n + 1 == |s.maps[j.m].cells| ==> FullFor(s.maps[j.m], s.hash[j.k], j.k)
    ensures CellOf(s, j).Empty? && s.maps[j.m].closed ==> FullFor(s.maps[j.m], s.hash[j.k], j.k)
  {
    var sub, h := s.maps[j.m], s.hash[j.k];
    assert CellOf(s, j) == ProbeCell(sub, h, j.n);
    if Passed(CellOf(s, j), j.k) {
      assert PathOk(sub, h, j.k, j.n + 1);
      assert j.n + 1 == |sub.cells| ==> FullAt(sub, h, j.k, j.n + 1);
    }
    if CellOf(s, j).Empty? && sub.closed {
      assert FullAt(sub, h, j.k, j.n);
    }
  }

  /** Going on to the next array, or making one. */
  lemma FullMovesOn(s: State, t: nat, j: Job)
    requires Inv(s) && InsertAt(s, j) && FullFor(s.maps[j.m], s.hash[j.k], j.k)
    ensures PcOk(s, t, InsFull(s, j))
  {
    assert Before(s, j.m + 1, j.k);
    assert j.m + 1 < |s.maps| ==> SubOk(s.maps[j.m + 1]);
  }

  /** Loads that do not leave the cell. */
  lemma InsertLoad(s: State, s': State, t: nat, j: Job, pc: PC)
    requires Inv(s) && t < |s.threads| && JobFits(s, j) && s' == Goto(s, t, pc)
    requires match s.threads[t]
             case InsCell(i) => i == j && (pc == InsPend(j) || (pc == InsWait(j) && !CellOf(s, j).Empty?))
             case InsSpin(i) => i == j && (pc == InsSpinPending(j) || (pc == InsClose(j) && s.maps[j.m].isFull == NO_PENDING_INSERTS))
             case InsReload(i) => i == j && pc == InsWait(j) && !CellOf(s, j).Empty?
             case InsWait(i) => i == j && pc == InsCompare(j)
             case InsFullCheck(i) =>
               i == j && (pc == InsUnpendFull(j) || pc == InsTryLock(j)) && (pc == InsTryLock(j) <==> s.maps[j.m].isFull == 0)
             case InsTryLock(i) => i == j && pc == InsUnpend(j) && !CellOf(s, j).Empty?
             case InsCompare(i) => i == j && pc == InsCell(j)
             case _ => false
    ensures Inv(s')
  {
    assert PcOk(s, t, s.threads[t]);
    assert SubOk(s.maps[j.m]);
    LocalStep(s, s', t, pc);
  }

  /** The array turns out full for the key. */
  lemma InsertFull(s: State, s': State, t: nat, j: Job)
    requires Inv(s) && t < |s.threads| && (s.threads[t] == InsReload(j) || s.threads[t] == InsCompare(j))
    requires JobFits(s, j) && FullFor(s.maps[j.m], s.hash[j.k], j.k) && s' == Goto(s, t, InsFull(s, j))
    ensures Inv(s')
  {
    assert PcOk(s, t, s.threads[t]);
    FullMovesOn(s, t, j);
    LocalStep(s, s', t, InsFull(s, j));
  }

  lemma InsertCompare(s: State, s': State, t: nat, j: Job)
    requires Inv(s) && t < |s.threads| && JobFits(s, j) && StepInsert(s, s', t, j) && s.threads[t] == InsCompare(j)
    ensures Inv(s')
  {
    assert PcOk(s, t, s.threads[t]);
    PathGrows(s, j);
    if CellOf(s, j) == Key(j.k) {
      LocalStep(s, s', t, InsEnd(j.k, j.m, Spot(s, j), false));
    } else if CellOf(s, j).Empty? || CellOf(s, j).Locked? {
      InsertLoad(s, s', t, j, InsCell(j));
    } else if j.n + 1 >= |s.maps[j.m].cells| {
      InsertFull(s, s', t, j);
    } else {
      LocalStep(s, s', t, InsCell(j.(n := j.n + 1)));
    }
  }

  lemma InsertLocal(s: State, s': State, t: nat, j: Job)
    requires Inv(s) && t < |s.threads| && JobFits(s, j) && StepInsert(s, s', t, j) && InInsert(s.threads[t]) && s.threads[t].j == j
    requires var pc := s.threads[t];
             || pc.InsCell? || pc.InsFullCheck? || pc.InsSpin? || pc.InsReload? || pc.InsWait?
             || (pc.InsTryLock? && !CellOf(s, j).Empty?)
    ensures Inv(s')
  {
    assert PcOk(s, t, s.threads[t]);
    if s.threads[t].InsReload? && CellOf(s, j).Empty? {
      PathGrows(s, j);
      InsertFull(s, s', t, j);
    } else if s' != s {
      InsertLoad(s, s', t, j, s'.threads[t]);
    }
  }

  lemma PendStep(s: State, s': State, t: nat, j: Job)
    requires Inv(s) && t < |s.threads| && JobFits(s, j) && StepInsert(s, s', t, j) && s.threads[t] == InsPend(j)
    ensures Inv(s')
  {
    assert PcOk(s, t, s.threads[t]) && SubOk(s.maps[j.m]);
    assert t !in s.maps[j.m].inside;
    assert Gentle(s, s', t);
    InsertKept(s, s', t, j);
    CounterStep(s, s', t, j.m, s'.maps[j.m], InsFullCheck(j));
  }

  lemma UnpendStep(s: State, s': State, t: nat, j: Job, pc: PC)
    requires Inv(s) && t < |s.threads| && JobFits(s, j) && s.maps[j.m].pending > 0 && s' == Goto(Unpend(s, t, j.m), t, pc)
    requires match s.threads[t]
             case InsUnpendFull(i) => i == j && pc == InsSpin(j)
             case InsUnpendDone(i) => i == j && pc == InsMark(j)
             case InsUnpend(i) => i == j && pc == InsWait(j)
             case _ => false
    ensures Inv(s')
  {
    assert PcOk(s, t, s.threads[t]) && SubOk(s.maps[j.m]);
    assert t in s.maps[j.m].inside;
    assert Gentle(s, s', t);
    InsertKept(s, s', t, j);
    CounterStep(s, s', t, j.m, s'.maps[j.m], pc);
  }

  /** The instant of closing: isFull is set and nothing is pending. */
  lemma SpinPendingStep(s: State, s': State, t: nat, j: Job)
    requires Inv(s) && t < |s.threads| && JobFits(s, j) && StepInsert(s, s', t, j) && s.threads[t] == InsSpinPending(j)
    ensures Inv(s')
  {
    assert PcOk(s, t, s.threads[t]) && SubOk(s.maps[j.m]);
    if s.maps[j.m].pending == 0 {
      assert s.maps[j.m].inside == {};
      assert Gentle(s, s', t);
      InsertKept(s, s', t, j);
      CounterStep(s, s', t, j.m, s'.maps[j.m], InsClose(j));
    } else {
      LocalStep(s, s', t, InsSpin(j));
    }
  }

  lemma CloseStep(s: State, s': State, t: nat, j: Job)
    requires Inv(s) && t < |s.threads| && JobFits(s, j) && StepInsert(s, s', t, j) && s.threads[t] == InsClose(j)
    ensures Inv(s')
  {
    assert PcOk(s, t, s.threads[t]) && SubOk(s.maps[j.m]);
    assert t !in s.maps[j.m].inside;
    assert Gentle(s, s', t);
    InsertKept(s, s', t, j);
    CounterStep(s, s', t, j.m, s'.maps[j.m], InsReload(j));
  }

  lemma MarkStep(s: State, s': State, t: nat, j: Job)
    requires Inv(s) && t < |s.threads| && JobFits(s, j) && StepInsert(s, s', t, j) && s.threads[t] == InsMark(j)
    ensures Inv(s')
  {
    assert PcOk(s, t, s.threads[t]) && SubOk(s.maps[j.m]);
    assert t !in s.maps[j.m].inside;
    var pc := InsEnd(j.k, j.m, Spot(s, j), true);
    if s' == Goto(s, t, pc) {
      LocalStep(s, s', t, pc);
    } else {
      CounterStep(s, s', t, j.m, s.maps[j.m].(isFull := NO_NEW_INSERTS), pc);
    }
  }

  lemma LockStep(s: State, s': State, t: nat, j: Job)
    requires Inv(s) && t < |s.threads| && JobFits(s, j) && s.threads[t] == InsTryLock(j) && CellOf(s, j).Empty?
    requires s' == Goto(SetCell(s, j, Locked(t)), t, InsUnlock(j))
    ensures Inv(s')
  {
    assert PcOk(s, t, s.threads[t]);
    assert Gentle(s, s', t);
    InsertKept(s, s', t, j);
    CellStep(s, s', t, j, Locked(t), InsUnlock(j));
  }

  lemma UnlockStep(s: State, s': State, t: nat, j: Job)
    requires Inv(s) && t < |s.threads| && JobFits(s, j) && s.threads[t] == InsUnlock(j)
    requires s' == Goto(SetCell(s, j, Key(j.k)), t, InsUnpendDone(j))
    ensures Inv(s')
  {
    assert PcOk(s, t, s.threads[t]);
    assert Gentle(s, s', t);
    InsertKept(s, s', t, j);
    assert HomeAt(s', j.m, j.k, Spot(s, j), j.n);
    CellStep(s, s', t, j, Key(j.k), InsUnpendDone(j));
  }

  lemma EraseStep(s: State, s': State, t: nat, j: Job)
    requires Inv(s) && t < |s.threads| && JobFits(s, j) && s.threads[t] == EraseCas(j) && CellOf(s, j) == Key(j.k)
    requires s' == Goto(SetCell(s, j, Erased), t, EraseEnd(j.k, true))
    ensures Inv(s')
  {
    assert PcOk(s, t, s.threads[t]);
    assert SubGentle(s.maps[j.m], s'.maps[j.m], t);
    CellStep(s, s', t, j, Erased, EraseEnd(j.k, true));
  }

  lemma EraseMiss(s: State, s': State, t: nat, j: Job)
    requires Inv(s) && t < |s.threads| && JobFits(s, j) && (s.threads[t] == EraseCas(j) || s.threads[t] == EraseCell(j))
    requires s' == Goto(s, t, EraseNext(j))
    ensures Inv(s')
  {
    assert PcOk(s, t, s.threads[t]);
    NextArrayFits(s, j);
    LocalStep(s, s', t, EraseNext(j));
  }

  lemma EraseCellStep(s: State, s': State, t: nat, j: Job)
    requires Inv(s) && t < |s.threads| && JobFits(s, j) && StepEraseCell(s, s', t, j) && s.threads[t] == EraseCell(j)
    ensures Inv(s')
  {
    assert PcOk(s, t, s.threads[t]);
    if s' == Goto(s, t, EraseNext(j)) {
      EraseMiss(s, s', t, j);
    } else if s' == Goto(s, t, EraseCas(j)) {
      LocalStep(s, s', t, EraseCas(j));
    } else {
      LocalStep(s, s', t, EraseCell(j.(n := j.n + 1)));
    }
  }

  lemma FindCellStep(s: State, s': State, t: nat, j: Job)
    requires Inv(s) && t < |s.threads| && JobFits(s, j) && StepFindCell(s, s', t, j) && s.threads[t] == FindCell(j)
    ensures Inv(s')
  {
    assert PcOk(s, t, s.threads[t]);
    NextArrayFits(s, j);
    LocalStep(s, s', t, s'.threads[t]);
  }

  lemma NextArrayFits(s: State, j: Job)
    requires Inv(s) && JobFits(s, j) && j.next <= s.numMaps
    ensures j.m + 1 < j.next ==> JobFits(s, Job(j.k, j.next, j.m + 1, 0))
  {
    assert j.m + 1 < j.next ==> SubOk(s.maps[j.m + 1]);
  }

  /** Positions outside a call or at the start of one. */
  predicate Entering(pc: PC) {
    pc.Idle? || pc.InsBegin? || pc.EraseBegin? || pc.FindMaps? || pc.FindEnd? || pc.EraseEnd? || pc.InsEnd?
  }

  lemma FirstCell(s: State, s': State, t: nat, pc: PC)
    requires Inv(s) && t < |s.threads| && Entering(s.threads[t]) && s' == Goto(s, t, pc)
    requires (pc.InsCell? || pc.FindCell? || pc.EraseCell?) && pc.j.n == 0 && pc.j.k < |s.hash|
    requires pc.j.m < s.numMaps && pc.j.next <= s.numMaps && (pc.InsCell? ==> pc.j.m == 0)
    ensures Inv(s')
  {
    assert SubOk(s.maps[pc.j.m]);
    LocalStep(s, s', t, pc);
  }

  lemma EnterStep(s: State, s': State, t: nat)
    requires Inv(s) && t < |s.threads| && Step(s, s', t) && Entering(s.threads[t]) && Entering(s'.threads[t])
    requires s' == Goto(s, t, s'.threads[t]) && |s'.threads| == |s.threads|
    ensures Inv(s')
  {
    assert PcOk(s, t, s.threads[t]);
    LocalStep(s, s', t, s'.threads[t]);
  }

  lemma StartStep(s: State, s': State, t: nat)
    requires Inv(s) && t < |s.threads| && Step(s, s', t) && Entering(s.threads[t])
    ensures Inv(s')
  {
    assert PcOk(s, t, s.threads[t]);
    if Entering(s'.threads[t]) {
      EnterStep(s, s', t);
    } else {
      FirstCell(s, s', t, s'.threads[t]);
    }
  }

  // --------------------------------------------------------------- making an array

  lemma GrowLockStep(s: State, s': State, t: nat)
    requires Inv(s) && t < |s.threads| && StepGrowLock(s, s', t)
    ensures Inv(s')
  {
    var pc := s.threads[t];
    assert PcOk(s, t, pc);
    if s'.threads[t].GrowStore? {
      GrowLocked(s, s', t);
    } else {
      LocalStep(s, s', t, s'.threads[t]);
    }
  }

  lemma GrowLocked(s: State, s': State, t: nat)
    requires Inv(s) && t < |s.threads| && s.threads[t].GrowLock? && !s.building && s.threads[t].next == |s.maps|
    requires s' == Goto(s.(building := true, builder := Some(t)), t, GrowStore(s.threads[t].k, s.threads[t].next))
    ensures Inv(s')
  {
    assert PcOk(s, t, s.threads[t]);
    assert Gentle(s, s', t);
    OtherThreads(s, s', t);
    CellsStay(s, s', t);
  }

  lemma GrowStoreStep(s: State, s': State, t: nat, capacity: nat)
    requires Inv(s) && t < |s.threads| && StepGrowStore(s, s', t, capacity)
    ensures Inv(s')
  {
    var pc := s.threads[t];
    assert PcOk(s, t, pc);
    assert Gentle(s, s', t);
    BeforeKept(s, s', t, pc.next, pc.k);
    OtherThreads(s, s', t);
    CellsStay(s, s', t);
    forall u | 0 <= u < |s'.threads| ensures !Pending(s'.threads[u], |s.maps|) {
      assert PcOk(s, u, s.threads[u]);
    }
  }

  lemma GrowPublishStep(s: State, s': State, t: nat)
    requires Inv(s) && t < |s.threads| && StepGrowPublish(s, s', t)
    ensures Inv(s')
  {
    var pc := s.threads[t];
    assert PcOk(s, t, pc);
    assert SubOk(s.maps[pc.next]);
    BeforeKept(s, s', t, pc.next, pc.k);
    OtherThreads(s, s', t);
    CellsStay(s, s', t);
  }

  lemma GrowWaitStep(s: State, s': State, t: nat)
    requires Inv(s) && t < |s.threads| && StepGrowWait(s, s', t)
    ensures Inv(s')
  {
    var pc := s.threads[t];
    assert PcOk(s, t, pc);
    if pc.next < s.numMaps {
      assert SubOk(s.maps[pc.next]);
      LocalStep(s, s', t, s'.threads[t]);
    }
  }

  lemma StepInv(s: State, s': State, t: nat)
    requires Inv(s) && t < |s.threads| && Step(s, s', t)
    ensures Inv(s')
  {
    var pc := s.threads[t];
    assert PcOk(s, t, pc);
    if pc.GrowLock? {
      GrowLockStep(s, s', t);
    } else if pc.GrowStore? {
      var capacity: nat :| StepGrowStore(s, s', t, capacity);
      GrowStoreStep(s, s', t, capacity);
    } else if pc.GrowPublish? {
      GrowPublishStep(s, s', t);
    } else if pc.GrowWait? {
      GrowWaitStep(s, s', t);
    } else if pc.EraseCas? {
      if CellOf(s, pc.j) == Key(pc.j.k) {
        EraseStep(s, s', t, pc.j);
      } else {
        EraseMiss(s, s', t, pc.j);
      }
    } else if pc.EraseCell? {
      EraseCellStep(s, s', t, pc.j);
    } else if pc.FindCell? {
      FindCellStep(s, s', t, pc.j);
    } else if InInsert(pc) {
      InsertStep(s, s', t, pc.j);
    } else {
      StartStep(s, s', t);
    }
  }

  lemma InsertStep(s: State, s': State, t: nat, j: Job)
    requires Inv(s) && t < |s.threads| && JobFits(s, j) && StepInsert(s, s', t, j) && InInsert(s.threads[t]) && s.threads[t].j == j
    ensures Inv(s')
  {
    match s.threads[t]
    case InsUnlock(_) => UnlockStep(s, s', t, j);
    case InsTryLock(_) =>
      if CellOf(s, j).Empty? {
        LockStep(s, s', t, j);
      } else {
        InsertLocal(s, s', t, j);
      }
    case InsPend(_) => PendStep(s, s', t, j);
    case InsUnpendFull(_) => UnpendStep(s, s', t, j, InsSpin(j));
    case InsUnpendDone(_) => UnpendStep(s, s', t, j, InsMark(j));
    case InsUnpend(_) => UnpendStep(s, s', t, j, InsWait(j));
    case InsSpinPending(_) => SpinPendingStep(s, s', t, j);
    case InsClose(_) => CloseStep(s, s', t, j);
    case InsMark(_) => MarkStep(s, s', t, j);
    case InsCompare(_) => InsertCompare(s, s', t, j);
    case _ => InsertLocal(s, s', t, j);
  }

  // ------------------------------------------------------------------- whole runs

  lemma {:induction false} RunInv(run: seq<State>, i: nat)
    requires IsRun(run) && i < |run|
    ensures Inv(run[i])
    decreases i
  {
    if i == 0 {
      InitInv(run[0]);
    } else {
      RunInv(run, i - 1);
      assert NextAt(run, i - 1);
      var t: nat :| StepBy(run, i - 1, t);
      StepInv(run[i - 1], run[i], t);
    }
  }

  /** The code's assertions: probes stay inside the array, the pending count is not
      decremented below zero, and a cell found taken is never empty again. */
  lemma AssertionsHold(run: seq<State>, i: nat, t: nat)
    requires IsRun(run) && i < |run| && t < |run[i].threads|
    ensures var s, pc := run[i], run[i].threads[t];
            && (InInsert(pc) || pc.FindCell? || pc.EraseCell? || pc.EraseCas? ==> JobFits(s, pc.j))
            && (pc.InsUnpendFull? || pc.InsUnpendDone? || pc.InsUnpend? ==> s.maps[pc.j.m].pending > 0)
            && (pc.InsWait? || pc.InsCompare? ==> !CellOf(s, pc.j).Empty?)
  {
    RunInv(run, i);
    var s, pc := run[i], run[i].threads[t];
    assert PcOk(s, t, pc);
    if pc.InsUnpendFull? || pc.InsUnpendDone? || pc.InsUnpend? {
      assert SubOk(s.maps[pc.j.m]) && t in s.maps[pc.j.m].inside;
    }
  }

  /** Cell c of array m holds k. */
  predicate LiveAt(s: State, m: nat, c: nat, k: nat) {
    m < |s.maps| && c < |s.maps[m].cells| && s.maps[m].cells[c] == Key(k)
  }

  /** An array full for k holds no k. */
  lemma FullHasNone(s: State, m: nat, c: nat, k: nat)
    requires Inv(s) && LiveAt(s, m, c, k) && k < |s.hash|
    ensures !FullFor(s.maps[m], s.hash[k], k)
  {
    assert CellOk(s, m, c);
    var n: nat :| HomeAt(s, m, k, c, n);
    var sub, h := s.maps[m], s.hash[k];
    assert ProbeCell(sub, h, n) == Key(k);
    forall f: nat ensures !FullAt(sub, h, k, f) {
      if f < n {
        assert Passed(ProbeCell(sub, h, f), k);
      }
    }
  }

  /** In every reachable state a key is in at most one cell of all arrays. */
  lemma AtMostOneCell(run: seq<State>, i: nat, k: nat, m: nat, c: nat, m': nat, c': nat)
    requires IsRun(run) && i < |run| && LiveAt(run[i], m, c, k) && LiveAt(run[i], m', c', k)
    ensures m == m' && c == c'
  {
    RunInv(run, i);
    OneCell(run[i], k, m, c, m', c');
  }

  lemma OneCell(s: State, k: nat, m: nat, c: nat, m': nat, c': nat)
    requires Inv(s) && LiveAt(s, m, c, k) && LiveAt(s, m', c', k)
    ensures m == m' && c == c'
  {
    assert CellOk(s, m, c) && CellOk(s, m', c');
    var n: nat :| HomeAt(s, m, k, c, n);
    var n': nat :| HomeAt(s, m', k, c', n');
    FullHasNone(s, m, c, k);
    FullHasNone(s, m', c', k);
    assert n < n' ==> Passed(ProbeCell(s.maps[m'], s.hash[k], n), k);
    assert n' < n ==> Passed(ProbeCell(s.maps[m], s.hash[k], n'), k);
  }

  // -------------------------------------------------------------- how runs evolve

  /** What any step leaves of arrays and of other threads. */
  ghost predicate Evolves(s: State, s': State, t: nat) {
    && s'.hash == s.hash && |s'.threads| == |s.threads| && |s.maps| <= |s'.maps| && s.numMaps <= s'.numMaps
    && (forall u | 0 <= u < |s.threads| && u != t :: s'.threads[u] == s.threads[u])
    && (forall m | 0 <= m < |s.maps| :: Mono(s.maps[m], s'.maps[m]))
  }

  lemma InsertEvolves(s: State, s': State, t: nat, j: Job)
    requires t < |s.threads| && JobFits(s, j) && StepInsert(s, s', t, j) && InInsert(s.threads[t]) && s.threads[t].j == j
    requires PcOk(s, t, s.threads[t])
    ensures Evolves(s, s', t)
  {
  }

  lemma SearchEvolves(s: State, s': State, t: nat)
    requires t < |s.threads| && Step(s, s', t) && !InInsert(s.threads[t]) && !s.threads[t].GrowStore? && !s.threads[t].EraseCas?
    ensures Evolves(s, s', t)
  {
    assert s'.maps == s.maps && s'.hash == s.hash && |s'.threads| == |s.threads|;
  }

  lemma StepEvolves(s: State, s': State, t: nat)
    requires t < |s.threads| && Step(s, s', t) && PcOk(s, t, s.threads[t])
    ensures Evolves(s, s', t)
  {
    var pc := s.threads[t];
    if InInsert(pc) {
      InsertEvolves(s, s', t, pc.j);
    } else if !pc.GrowStore? && !pc.EraseCas? {
      SearchEvolves(s, s', t);
    }
  }

  lemma RunEvolves(run: seq<State>, i: nat) returns (t: nat)
    requires IsRun(run) && i + 1 < |run|
    ensures StepBy(run, i, t) && Evolves(run[i], run[i + 1], t)
  {
    assert NextAt(run, i);
    t :| StepBy(run, i, t);
    RunStepEvolves(run, i, t);
  }

  lemma RunStepEvolves(run: seq<State>, i: nat, t: nat)
    requires IsRun(run) && i + 1 < |run| && StepBy(run, i, t)
    ensures Evolves(run[i], run[i + 1], t)
  {
    RunInv(run, i);
    StepEvolves(run[i], run[i + 1], t);
  }

  /** Once an insert has found the array closed, its empty cells stay empty for good. */
  lemma {:induction false} NoInsertAfterClosing(run: seq<State>, i: nat, e: nat, m: nat, c: nat)
    requires IsRun(run) && i <= e < |run| && m < |run[i].maps| && c < |run[i].maps[m].cells|
    requires run[i].maps[m].closed && run[i].maps[m].cells[c].Empty?
    ensures m < |run[e].maps| && c < |run[e].maps[m].cells| && run[e].maps[m].closed && run[e].maps[m].cells[c].Empty?
    decreases e - i
  {
    if i < e {
      NoInsertAfterClosing(run, i, e - 1, m, c);
      var t := RunEvolves(run, e - 1);
      assert Mono(run[e - 1].maps[m], run[e].maps[m]);
      assert CellMono(run[e - 1].maps[m].cells[c], run[e].maps[m].cells[c], true);
    }
  }

  /** A key that does not fit in an array is never in it again. */
  lemma {:induction false} FullIsForever(run: seq<State>, i: nat, e: nat, m: nat, k: nat)
    requires IsRun(run) && i <= e < |run| && m < |run[i].maps| && k < |run[i].hash|
    requires FullFor(run[i].maps[m], run[i].hash[k], k)
    ensures m < |run[e].maps| && run[e].hash == run[i].hash && FullFor(run[e].maps[m], run[e].hash[k], k)
    ensures forall c: nat :: !LiveAt(run[e], m, c, k)
    decreases e - i
  {
    if i < e {
      FullIsForever(run, i, e - 1, m, k);
      var t := RunEvolves(run, e - 1);
      FullKept(run[e - 1].maps[m], run[e].maps[m], run[e].hash[k], k);
    }
    RunInv(run, e);
    forall c: nat ensures !LiveAt(run[e], m, c, k) {
      if LiveAt(run[e], m, c, k) {
        FullHasNone(run[e], m, c, k);
      }
    }
  }

  // ---------------------------------------------------------------- find and erase

  /** A search for k that is still on its way to the n-th cell of array m. */
  predicate Ahead(j: Job, m: nat, n: nat, k: nat) {
    j.k == k && (j.m < m || (j.m == m && j.n <= n))
  }

  predicate FindAhead(pc: PC, m: nat, c: nat, n: nat, k: nat) {
    match pc
    case FindCell(j) => Ahead(j, m, n, k) && (j.m > 0 ==> m < j.next)
    case FindMaps(k') => k' == k && m > 0
    case FindEnd(k', found) => k' == k && found == Some((m, c))
    case _ => false
  }

  predicate EraseAhead(pc: PC, m: nat, n: nat, k: nat) {
    match pc
    case EraseBegin(k') => k' == k
    case EraseCell(j) => Ahead(j, m, n, k) && m < j.next
    case EraseCas(j) => j.k == k && j.m == m && j.n == n
    case _ => false
  }

  /** What a search meets before k's cell. */
  lemma OnTheWay(s: State, j: Job, m: nat, c: nat, n: nat, k: nat)
    requires Inv(s) && LiveAt(s, m, c, k) && HomeAt(s, m, k, c, n) && Ahead(j, m, n, k) && JobFits(s, j)
    ensures CellOf(s, j) == Key(k) <==> j.m == m && j.n == n
    ensures j.m == m && j.n == n ==> Spot(s, j) == c
    ensures j.m == m && j.n < n ==> Passed(CellOf(s, j), k)
  {
    assert CellOf(s, j) == ProbeCell(s.maps[j.m], s.hash[k], j.n);
    if j.m < m && CellOf(s, j) == Key(k) {
      OneCell(s, k, m, c, j.m, Spot(s, j));
    }
    assert j.m == m && j.n < n ==> Passed(ProbeCell(s.maps[m], s.hash[k], j.n), k);
  }

  lemma FindStays(s: State, s': State, t: nat, m: nat, c: nat, n: nat, k: nat)
    requires Inv(s) && t < |s.threads| && Step(s, s', t) && LiveAt(s, m, c, k) && HomeAt(s, m, k, c, n)
    requires FindAhead(s.threads[t], m, c, n, k) && !s.threads[t].FindEnd?
    ensures t < |s'.threads| && FindAhead(s'.threads[t], m, c, n, k)
  {
    assert PcOk(s, t, s.threads[t]);
    if s.threads[t].FindCell? {
      OnTheWay(s, s.threads[t].j, m, c, n, k);
    }
  }

  lemma EraseStays(s: State, s': State, t: nat, m: nat, c: nat, n: nat, k: nat)
    requires Inv(s) && t < |s.threads| && Step(s, s', t) && LiveAt(s, m, c, k) && HomeAt(s, m, k, c, n)
    requires EraseAhead(s.threads[t], m, n, k)
    ensures t < |s'.threads|
    ensures EraseAhead(s'.threads[t], m, n, k) || (s'.threads[t] == EraseEnd(k, true) && s'.maps[m].cells[c].Erased?)
  {
    assert PcOk(s, t, s.threads[t]);
    if s.threads[t].EraseCell? || s.threads[t].EraseCas? {
      OnTheWay(s, s.threads[t].j, m, c, n, k);
    }
  }

  /** k stays in cell c of array m from state i to state e. */
  ghost predicate StaysLive(run: seq<State>, m: nat, c: nat, k: nat, i: nat, e: nat) {
    i <= e < |run| && forall x | i <= x <= e :: LiveAt(run[x], m, c, k)
  }

  /** Inside one call: thread t is not idle from state i to state e. */
  ghost predicate InCall(run: seq<State>, t: nat, i: nat, e: nat) {
    i <= e < |run| && forall x | i <= x <= e :: t < |run[x].threads| && !Outside(run[x].threads[t])
  }

  predicate Outside(pc: PC) { pc.Idle? || pc.InsBegin? }

  // ------------------------------------------------------- what an insert leaves behind

  /** The step after state x is the compare-and-swap of an erase of k, and it succeeds. */
  ghost predicate ErasedAt(run: seq<State>, x: nat, k: nat)
    requires x + 1 < |run|
  {
    exists t: nat :: t < |run[x].threads| && t < |run[x + 1].threads|
      && run[x].threads[t].EraseCas? && run[x + 1].threads[t] == EraseEnd(k, true)
  }

  /** No erase of k succeeds between states i and e. */
  ghost predicate NotErased(run: seq<State>, k: nat, i: nat, e: nat) {
    i <= e < |run| && forall x: nat | i <= x < e :: !ErasedAt(run, x, k)
  }

  lemma InsertKeepsKeys(s: State, s': State, t: nat, j: Job, m: nat, c: nat, k: nat)
    requires t < |s.threads| && JobFits(s, j) && StepInsert(s, s', t, j) && InInsert(s.threads[t]) && s.threads[t].j == j
    requires PcOk(s, t, s.threads[t]) && LiveAt(s, m, c, k)
    ensures LiveAt(s', m, c, k)
  {
  }

  /** Only a successful erase takes a key away. */
  lemma StepKeepsKey(s: State, s': State, t: nat, m: nat, c: nat, k: nat)
    requires t < |s.threads| && Step(s, s', t) && PcOk(s, t, s.threads[t]) && LiveAt(s, m, c, k)
    ensures LiveAt(s', m, c, k) || (s.threads[t].EraseCas? && t < |s'.threads| && s'.threads[t] == EraseEnd(k, true))
  {
    var pc := s.threads[t];
    if InInsert(pc) {
      InsertKeepsKeys(s, s', t, pc.j, m, c, k);
    } else if pc.GrowStore? {
      assert s'.maps[..|s.maps|] == s.maps;
    } else if !pc.EraseCas? {
      assert s'.maps == s.maps;
    }
  }

  /** A key that is not erased stays in its cell. */
  lemma {:induction false} UnerasedStaysLive(run: seq<State>, m: nat, c: nat, k: nat, i: nat, e: nat)
    requires IsRun(run) && NotErased(run, k, i, e) && LiveAt(run[i], m, c, k)
    ensures StaysLive(run, m, c, k, i, e)
    decreases e - i
  {
    if i < e {
      UnerasedStaysLive(run, m, c, k, i, e - 1);
      assert LiveAt(run[e - 1], m, c, k) && !ErasedAt(run, e - 1, k);
      RunKeepsKey(run, m, c, k, e - 1);
    }
  }

  lemma RunKeepsKey(run: seq<State>, m: nat, c: nat, k: nat, x: nat)
    requires IsRun(run) && x + 1 < |run| && LiveAt(run[x], m, c, k)
    ensures LiveAt(run[x + 1], m, c, k) || ErasedAt(run, x, k)
  {
    assert NextAt(run, x);
    var t: nat :| StepBy(run, x, t);
    RunInv(run, x);
    StepKeepsKey(run[x], run[x + 1], t, m, c, k);
  }

  /** An insert of k that has put the key into, or met it in, cell c of array m. */
  predicate Settled(s: State, pc: PC, m: nat, c: nat, k: nat) {
    match pc
    case InsUnpendDone(j) => JobFits(s, j) && j.k == k && j.m == m && Spot(s, j) == c
    case InsMark(j) => JobFits(s, j) && j.k == k && j.m == m && Spot(s, j) == c
    case InsEnd(k', m', c', _) => k' == k && m' == m && c' == c
    case _ => false
  }

  ghost predicate SettledFrom(run: seq<State>, t: nat, m: nat, c: nat, k: nat, p: nat, i: nat) {
    p <= i < |run| && forall x | p <= x <= i :: t < |run[x].threads| && Settled(run[x], run[x].threads[t], m, c, k)
  }

  /** One step back: settled before, or settled by a step that shows the key in the cell. */
  lemma SettledStep(s: State, s': State, t: nat, m: nat, c: nat, k: nat)
    requires t < |s.threads| && Step(s, s', t) && PcOk(s, t, s.threads[t])
    requires t < |s'.threads| && Settled(s', s'.threads[t], m, c, k)
    ensures Settled(s, s.threads[t], m, c, k) || LiveAt(s', m, c, k)
  {
    var pc := s.threads[t];
    if InInsert(pc) {
      SettledInsert(s, s', t, pc.j, m, c, k);
    } else {
      NotSettled(s, s', t);
    }
  }

  lemma NotSettled(s: State, s': State, t: nat)
    requires t < |s.threads| && Step(s, s', t) && !InInsert(s.threads[t]) && t < |s'.threads|
    ensures !s'.threads[t].InsUnpendDone? && !s'.threads[t].InsMark? && !s'.threads[t].InsEnd?
  {
    if InInsertCall(s.threads[t]) {
      GrowNotSettled(s, s', t);
    } else {
      SearchNotSettled(s, s', t);
    }
  }

  lemma GrowNotSettled(s: State, s': State, t: nat)
    requires t < |s.threads| && Step(s, s', t) && InInsertCall(s.threads[t]) && !InInsert(s.threads[t]) && t < |s'.threads|
    ensures !s'.threads[t].InsUnpendDone? && !s'.threads[t].InsMark? && !s'.threads[t].InsEnd?
  {
  }

  lemma SearchNotSettled(s: State, s': State, t: nat)
    requires t < |s.threads| && Step(s, s', t) && !InInsertCall(s.threads[t]) && t < |s'.threads|
    ensures !s'.threads[t].InsUnpendDone? && !s'.threads[t].InsMark? && !s'.threads[t].InsEnd?
  {
  }

  lemma SettledInsert(s: State, s': State, t: nat, j: Job, m: nat, c: nat, k: nat)
    requires t < |s.threads| && JobFits(s, j) && StepInsert(s, s', t, j) && InInsert(s.threads[t]) && s.threads[t].j == j
    requires t < |s'.threads| && Settled(s', s'.threads[t], m, c, k)
    ensures Settled(s, s.threads[t], m, c, k) || LiveAt(s', m, c, k)
  {
    assert s'.hash == s.hash && |s'.maps| == |s.maps| && |s'.maps[j.m].cells| == |s.maps[j.m].cells|;
  }

  lemma SettledBefore(run: seq<State>, t: nat, m: nat, c: nat, k: nat, i: nat)
    requires IsRun(run) && i + 1 < |run| && t < |run[i + 1].threads| && Settled(run[i + 1], run[i + 1].threads[t], m, c, k)
    ensures t < |run[i].threads|
    ensures Settled(run[i], run[i].threads[t], m, c, k) || LiveAt(run[i + 1], m, c, k)
  {
    var u := RunEvolves(run, i);
    RunInv(run, i);
    assert PcOk(run[i], t, run[i].threads[t]);
    if u == t {
      SettledStep(run[i], run[i + 1], t, m, c, k);
    } else if InInsert(run[i].threads[t]) {
      var j := run[i].threads[t].j;
      assert Mono(run[i].maps[j.m], run[i + 1].maps[j.m]);
    }
  }

  /** The state, inside the call, in which an insert took effect: the key is in the cell that
      the call reports. */
  lemma {:induction false} InsertTakesEffect(run: seq<State>, t: nat, m: nat, c: nat, k: nat, i: nat) returns (p: nat)
    requires IsRun(run) && i < |run| && t < |run[i].threads| && Settled(run[i], run[i].threads[t], m, c, k)
    ensures SettledFrom(run, t, m, c, k, p, i) && LiveAt(run[p], m, c, k)
    decreases i
  {
    p := i;
    if i > 0 {
      SettledBefore(run, t, m, c, k, i - 1);
      if !LiveAt(run[i], m, c, k) {
        p := InsertTakesEffect(run, t, m, c, k, i - 1);
      }
    }
  }

  /** A find of k that starts after an insert of k has returned, k not having been erased
      since the insert took effect, returns the insert's cell. */
  lemma FindAfterInsert(run: seq<State>, t: nat, u: nat, m: nat, c: nat, k: nat, inserted: bool, i: nat, f: nat, e: nat) returns (p: nat)
    requires IsRun(run) && i <= f && InCall(run, u, f, e)
    requires t < |run[i].threads| && run[i].threads[t] == InsEnd(k, m, c, inserted)
    requires run[f].threads[u] == FindCell(Job(k, 0, 0, 0)) && run[e].threads[u].FindEnd?
    ensures SettledFrom(run, t, m, c, k, p, i)
    ensures NotErased(run, k, p, e) ==> run[e].threads[u] == FindEnd(k, Some((m, c)))
  {
    p := InsertTakesEffect(run, t, m, c, k, i);
    if NotErased(run, k, p, e) {
      UnerasedStaysLive(run, m, c, k, p, e);
      FindSucceeds(run, u, m, c, k, f, e);
    }
  }

  /** An array that turned an insert of k away never holds k again. */
  lemma TurnedAwayForever(run: seq<State>, i: nat, e: nat, t: nat, j: Job)
    requires IsRun(run) && i + 1 < |run| && i <= e < |run| && t < |run[i].threads| && t < |run[i + 1].threads|
    requires run[i].threads[t] == InsReload(j) || run[i].threads[t] == InsCompare(j)
    requires run[i + 1].threads[t] == InsFull(run[i], j)
    ensures forall c: nat :: !LiveAt(run[e], j.m, c, j.k)
  {
    var u := RunEvolves(run, i);
    RunInv(run, i);
    assert u == t;
    assert PcOk(run[i], t, run[i].threads[t]);
    PathGrows(run[i], j);
    FullIsForever(run, i, e, j.m, j.k);
  }

  /** A cell's place on the path of its key does not change. */
  lemma {:induction false} SamePlace(run: seq<State>, m: nat, c: nat, k: nat, n: nat, i: nat, e: nat)
    requires IsRun(run) && StaysLive(run, m, c, k, i, e) && HomeAt(run[i], m, k, c, n)
    ensures HomeAt(run[e], m, k, c, n)
    decreases e - i
  {
    if i < e {
      SamePlace(run, m, c, k, n, i, e - 1);
      var t := RunEvolves(run, e - 1);
      assert Mono(run[e - 1].maps[m], run[e].maps[m]);
      assert LiveAt(run[e], m, c, k);
      RunInv(run, e);
      assert CellOk(run[e], m, c);
      var n': nat :| HomeAt(run[e], m, k, c, n');
    }
  }

  lemma {:induction false} FindOnItsWay(run: seq<State>, t: nat, m: nat, c: nat, k: nat, n: nat, i: nat, e: nat)
    requires IsRun(run) && StaysLive(run, m, c, k, i, e) && InCall(run, t, i, e) && HomeAt(run[i], m, k, c, n)
    requires run[i].threads[t] == FindCell(Job(k, 0, 0, 0))
    ensures FindAhead(run[e].threads[t], m, c, n, k)
    decreases e - i
  {
    if i < e {
      FindOnItsWay(run, t, m, c, k, n, i, e - 1);
      SamePlace(run, m, c, k, n, i, e - 1);
      assert LiveAt(run[e - 1], m, c, k);
      FindRunStep(run, t, m, c, k, n, e - 1);
    }
  }

  lemma FindRunStep(run: seq<State>, t: nat, m: nat, c: nat, k: nat, n: nat, e: nat)
    requires IsRun(run) && e + 1 < |run| && LiveAt(run[e], m, c, k) && HomeAt(run[e], m, k, c, n)
    requires t < |run[e].threads| && FindAhead(run[e].threads[t], m, c, n, k)
    requires t < |run[e + 1].threads| && !Outside(run[e + 1].threads[t])
    ensures FindAhead(run[e + 1].threads[t], m, c, n, k)
  {
    var u := RunEvolves(run, e);
    if u == t && !run[e].threads[t].FindEnd? {
      RunInv(run, e);
      FindStays(run[e], run[e + 1], t, m, c, n, k);
    }
  }

  /** A find that starts with k in the map, and during which k is not erased, finds k. */
  lemma FindSucceeds(run: seq<State>, t: nat, m: nat, c: nat, k: nat, i: nat, e: nat)
    requires IsRun(run) && StaysLive(run, m, c, k, i, e) && InCall(run, t, i, e)
    requires run[i].threads[t] == FindCell(Job(k, 0, 0, 0)) && run[e].threads[t].FindEnd?
    ensures run[e].threads[t] == FindEnd(k, Some((m, c)))
  {
    RunInv(run, i);
    assert LiveAt(run[i], m, c, k);
    assert CellOk(run[i], m, c);
    var n: nat :| HomeAt(run[i], m, k, c, n);
    FindOnItsWay(run, t, m, c, k, n, i, e);
  }

  lemma {:induction false} EraseOnItsWay(run: seq<State>, t: nat, m: nat, c: nat, k: nat, n: nat, i: nat, e: nat)
    requires IsRun(run) && StaysLive(run, m, c, k, i, e) && InCall(run, t, i, e) && HomeAt(run[i], m, k, c, n)
    requires run[i].threads[t] == EraseBegin(k)
    ensures EraseAhead(run[e].threads[t], m, n, k)
    decreases e - i
  {
    if i < e {
      EraseOnItsWay(run, t, m, c, k, n, i, e - 1);
      SamePlace(run, m, c, k, n, i, e - 1);
      assert LiveAt(run[e - 1], m, c, k) && LiveAt(run[e], m, c, k);
      EraseRunStep(run, t, m, c, k, n, e - 1);
    }
  }

  lemma EraseRunStep(run: seq<State>, t: nat, m: nat, c: nat, k: nat, n: nat, e: nat)
    requires IsRun(run) && e + 1 < |run| && LiveAt(run[e], m, c, k) && HomeAt(run[e], m, k, c, n)
    requires t < |run[e].threads| && EraseAhead(run[e].threads[t], m, n, k)
    ensures t < |run[e + 1].threads| && m < |run[e + 1].maps| && c < |run[e + 1].maps[m].cells|
    ensures EraseAhead(run[e + 1].threads[t], m, n, k)
            || (run[e + 1].threads[t] == EraseEnd(k, true) && run[e + 1].maps[m].cells[c].Erased?)
  {
    var u := RunEvolves(run, e);
    assert Mono(run[e].maps[m], run[e + 1].maps[m]);
    if u == t {
      RunInv(run, e);
      EraseStays(run[e], run[e + 1], t, m, c, n, k);
    }
  }

  /** An erase of a key that is in the map, and that nobody else erases first, erases it; in
      particular it never gives up at a locked cell. */
  lemma EraseSucceeds(run: seq<State>, t: nat, m: nat, c: nat, k: nat, i: nat, e: nat, erased: bool)
    requires IsRun(run) && StaysLive(run, m, c, k, i, e) && InCall(run, t, i, e) && e + 1 < |run|
    requires run[i].threads[t] == EraseBegin(k) && t < |run[e + 1].threads|
    requires run[e + 1].threads[t] == EraseEnd(k, erased)
    ensures erased && m < |run[e + 1].maps| && c < |run[e + 1].maps[m].cells| && run[e + 1].maps[m].cells[c].Erased?
  {
    RunInv(run, i);
    assert LiveAt(run[i], m, c, k) && LiveAt(run[e], m, c, k);
    assert CellOk(run[i], m, c);
    var n: nat :| HomeAt(run[i], m, k, c, n);
    EraseOnItsWay(run, t, m, c, k, n, i, e);
    SamePlace(run, m, c, k, n, i, e);
    EraseRunStep(run, t, m, c, k, n, e);
  }

  /** Publishing a key makes it live in the locked cell; it was live nowhere before. */
  lemma InsertedIsLive(run: seq<State>, i: nat, t: nat)
    requires IsRun(run) && i + 1 < |run| && t < |run[i].threads| && t < |run[i + 1].threads|
    requires run[i].threads[t].InsUnlock? && run[i + 1].threads[t].InsUnpendDone?
    ensures var j := run[i].threads[t].j;
            JobFits(run[i], j) && LiveAt(run[i + 1], j.m, Spot(run[i], j), j.k)
            && forall m: nat, c: nat :: !LiveAt(run[i], m, c, j.k)
  {
    var u := RunEvolves(run, i);
    assert u == t;
    RunInv(run, i);
    RunInv(run, i + 1);
    PublishedNow(run[i], run[i + 1], t);
  }

  lemma PublishedNow(s: State, s': State, t: nat)
    requires Inv(s) && Inv(s') && t < |s.threads| && s.threads[t].InsUnlock? && Step(s, s', t)
    ensures var j := s.threads[t].j;
            && JobFits(s, j) && LiveAt(s', j.m, Spot(s, j), j.k)
            && forall m: nat, c: nat :: !LiveAt(s, m, c, j.k)
  {
    var j := s.threads[t].j;
    assert PcOk(s, t, s.threads[t]);
    forall m: nat, c: nat ensures !LiveAt(s, m, c, j.k) {
      NotLiveWhileLocked(s, s', t, j, m, c);
    }
  }

  lemma NotLiveWhileLocked(s: State, s': State, t: nat, j: Job, m: nat, c: nat)
    requires Inv(s) && Inv(s') && t < |s.threads| && s.threads[t] == InsUnlock(j) && Step(s, s', t)
    ensures !LiveAt(s, m, c, j.k)
  {
    assert PcOk(s, t, s.threads[t]);
    assert LiveAt(s', j.m, Spot(s, j), j.k);
    if LiveAt(s, m, c, j.k) && LiveAt(s', m, c, j.k) {
      OneCell(s', j.k, m, c, j.m, Spot(s, j));
    }
  }

  // ------------------------------------------------------------------ nobody is stuck

  /** The side conditions of the steps never stop a thread inside a call. */
  lemma RunningThreadCanStep(s: State, t: nat) returns (s': State)
    requires Inv(s) && t < |s.threads| && !s.threads[t].Idle?
    ensures Step(s, s', t)
  {
    var pc := s.threads[t];
    assert PcOk(s, t, pc);
    if InInsert(pc) {
      assert SubOk(s.maps[pc.j.m]) && (Pending(pc, pc.j.m) ==> t in s.maps[pc.j.m].inside);
      s' := InsertCanStep(s, t, pc.j);
    } else if pc.InsBegin? || pc.GrowLock? || pc.GrowStore? || pc.GrowPublish? || pc.GrowWait? {
      s' := GrowCanStep(s, t);
    } else {
      s' := SearchCanStep(s, t);
    }
  }

  lemma InsertCanStep(s: State, t: nat, j: Job) returns (s': State)
    requires t < |s.threads| && InInsert(s.threads[t]) && s.threads[t].j == j && JobFits(s, j)
    requires var pc := s.threads[t]; pc.InsUnpendFull? || pc.InsUnpendDone? || pc.InsUnpend? ==> s.maps[j.m].pending > 0
    ensures Step(s, s', t)
  {
    var sub, cell := s.maps[j.m], CellOf(s, j);
    match s.threads[t]
    case InsCell(_) => s' := Goto(s, t, if cell.Empty? then InsPend(j) else InsWait(j));
    case InsPend(_) =>
      s' := Goto(SetMap(s, j.m, sub.(pending := sub.pending + 1, inside := sub.inside + {t})), t, InsFullCheck(j));
    case InsFullCheck(_) => s' := Goto(s, t, if sub.isFull != 0 then InsUnpendFull(j) else InsTryLock(j));
    case InsUnpendFull(_) => s' := Goto(Unpend(s, t, j.m), t, InsSpin(j));
    case InsSpin(_) => s' := Goto(s, t, if sub.isFull == NO_PENDING_INSERTS then InsClose(j) else InsSpinPending(j));
    case InsSpinPending(_) =>
      s' := if sub.pending == 0 then Goto(SetMap(s, j.m, sub.(closed := true)), t, InsClose(j)) else Goto(s, t, InsSpin(j));
    case InsClose(_) => s' := Goto(SetMap(s, j.m, sub.(isFull := NO_PENDING_INSERTS)), t, InsReload(j));
    case InsReload(_) => s' := Goto(s, t, if cell.Empty? then InsFull(s, j) else InsWait(j));
    case InsTryLock(_) =>
      s' := if cell.Empty? then Goto(SetCell(s, j, Locked(t)), t, InsUnlock(j)) else Goto(s, t, InsUnpend(j));
    case InsUnlock(_) => s' := Goto(SetCell(s, j, Key(j.k)), t, InsUnpendDone(j));
    case InsUnpendDone(_) => s' := Goto(Unpend(s, t, j.m), t, InsMark(j));
    case InsMark(_) => s' := Goto(s, t, InsEnd(j.k, j.m, Spot(s, j), true));
    case InsUnpend(_) => s' := Goto(Unpend(s, t, j.m), t, InsWait(j));
    case InsWait(_) => s' := if cell.Locked? then s else Goto(s, t, InsCompare(j));
    case InsCompare(_) =>
      s' := Goto(s, t, if cell == Key(j.k) then InsEnd(j.k, j.m, Spot(s, j), false)
                       else if cell.Empty? || cell.Locked? then InsCell(j) else InsNext(s, j));
  }

  lemma GrowCanStep(s: State, t: nat) returns (s': State)
    requires t < |s.threads|
    requires var pc := s.threads[t]; pc.InsBegin? || pc.GrowLock? || pc.GrowStore? || pc.GrowPublish? || pc.GrowWait?
    ensures Step(s, s', t)
  {
    match s.threads[t]
    case InsBegin(k) => s' := Goto(s, t, InsCell(Job(k, s.numMaps, 0, 0)));
    case GrowLock(k, next) =>
      s' := if next >= s.maxMaps then Goto(s, t, Idle)
            else if next == |s.maps| && !s.building then Goto(s.(building := true, builder := Some(t)), t, GrowStore(k, next))
            else Goto(s, t, GrowWait(k, next));
    case GrowStore(k, next) =>
      s' := Goto(s.(maps := s.maps + [NewSubMap(1)], building := false), t, GrowPublish(k, next));
      assert StepGrowStore(s, s', t, 1);
    case GrowPublish(k, next) => s' := Goto(s.(numMaps := s.numMaps + 1, builder := None), t, InsCell(Job(k, next, next, 0)));
    case GrowWait(k, next) => s' := if next < s.numMaps then Goto(s, t, InsCell(Job(k, next, next, 0))) else s;
  }

  lemma SearchCanStep(s: State, t: nat) returns (s': State)
    requires t < |s.threads| && PcOk(s, t, s.threads[t]) && !InInsert(s.threads[t]) && !s.threads[t].Idle?
    requires var pc := s.threads[t]; !pc.InsBegin? && !pc.GrowLock? && !pc.GrowStore? && !pc.GrowPublish? && !pc.GrowWait?
    ensures Step(s, s', t)
  {
    match s.threads[t]
    case FindCell(j) =>
      s' := Goto(s, t, if CellOf(s, j) == Key(j.k) then FindEnd(j.k, Some((j.m, Spot(s, j))))
                       else if CellOf(s, j).Empty? || j.n + 1 >= |s.maps[j.m].cells| then FindNext(j)
                       else FindCell(j.(n := j.n + 1)));
    case FindMaps(k) => s' := Goto(s, t, if 1 < s.numMaps then FindCell(Job(k, s.numMaps, 1, 0)) else FindEnd(k, None));
    case EraseBegin(k) => s' := Goto(s, t, EraseCell(Job(k, s.numMaps, 0, 0)));
    case EraseCell(j) =>
      s' := Goto(s, t, if CellOf(s, j).Empty? || CellOf(s, j).Locked? then EraseNext(j)
                       else if CellOf(s, j) == Key(j.k) then EraseCas(j)
                       else if j.n + 1 >= |s.maps[j.m].cells| then EraseNext(j)
                       else EraseCell(j.(n := j.n + 1)));
    case EraseCas(j) =>
      s' := if CellOf(s, j) == Key(j.k) then Goto(SetCell(s, j, Erased), t, EraseEnd(j.k, true)) else Goto(s, t, EraseNext(j));
    case InsEnd(_, _, _, _) => s' := Goto(s, t, Idle);
    case FindEnd(_, _) => s' := Goto(s, t, Idle);
    case EraseEnd(_, _) => s' := Goto(s, t, Idle);
  }

  // ------------------------------------------------------------------ what calls report

  /** k is in no cell. */
  ghost predicate Absent(s: State, k: nat) {
    forall m: nat, c: nat :: !LiveAt(s, m, c, k)
  }

  predicate InFind(pc: PC) { pc.FindCell? || pc.FindMaps? || pc.FindEnd? }

  /** A step of another thread leaves a thread where it is. */
  lemma OwnStep(run: seq<State>, k: nat, t: nat)
    requires IsRun(run) && k + 1 < |run| && t < |run[k + 1].threads|
    ensures t < |run[k].threads| && (run[k + 1].threads[t] == run[k].threads[t] || StepBy(run, k, t))
  {
    var u := RunEvolves(run, k);
  }

  lemma FindSees(s: State, s': State, t: nat, k: nat, m: nat, c: nat)
    requires t < |s.threads| && Step(s, s', t) && t < |s'.threads| && s'.threads[t] == FindEnd(k, Some((m, c)))
    ensures s.threads[t].FindCell? && LiveAt(s, m, c, k)
  {
  }

  /** A find that reports a cell saw the key there at a state inside the call. */
  lemma {:induction false} FindReportsLive(run: seq<State>, t: nat, k: nat, m: nat, c: nat, e: nat) returns (y: nat)
    requires IsRun(run) && e < |run| && t < |run[e].threads| && run[e].threads[t] == FindEnd(k, Some((m, c)))
    ensures y <= e && LiveAt(run[y], m, c, k) && forall x | y <= x <= e :: t < |run[x].threads| && InFind(run[x].threads[t])
    decreases e
  {
    y := e;
    if e > 0 {
      OwnStep(run, e - 1, t);
      if run[e - 1].threads[t] == run[e].threads[t] {
        y := FindReportsLive(run, t, k, m, c, e - 1);
      } else {
        y := e - 1;
        FindSees(run[e - 1], run[e], t, k, m, c);
      }
    }
  }

  /** What a successful erase leaves. */
  lemma ErasedIsAbsent(s: State, s': State, t: nat, k: nat)
    requires Inv(s) && t < |s.threads| && Step(s, s', t) && PcOk(s, t, s.threads[t])
    requires s.threads[t].EraseCas? && t < |s'.threads| && s'.threads[t] == EraseEnd(k, true)
    ensures Absent(s', k) && !Absent(s, k)
  {
    var j := s.threads[t].j;
    assert LiveAt(s, j.m, Spot(s, j), k);
    forall m: nat, c: nat ensures !LiveAt(s', m, c, k) {
      if LiveAt(s', m, c, k) {
        assert LiveAt(s, m, c, k);
        OneCell(s, k, m, c, j.m, Spot(s, j));
      }
    }
  }

  /** A key in a cell stays there until it is in no cell. */
  lemma {:induction false} StaysOrAbsent(run: seq<State>, m: nat, c: nat, k: nat, i: nat, e: nat) returns (y: nat)
    requires IsRun(run) && i <= e < |run| && LiveAt(run[i], m, c, k)
    ensures i <= y <= e && (StaysLive(run, m, c, k, i, e) || Absent(run[y], k))
    decreases e
  {
    y := e;
    if i < e {
      y := StaysOrAbsent(run, m, c, k, i, e - 1);
      if StaysLive(run, m, c, k, i, e - 1) {
        y := e;
        KeptOrAbsent(run, m, c, k, e - 1);
      }
    }
  }

  lemma KeptOrAbsent(run: seq<State>, m: nat, c: nat, k: nat, x: nat)
    requires IsRun(run) && x + 1 < |run| && LiveAt(run[x], m, c, k)
    ensures LiveAt(run[x + 1], m, c, k) || Absent(run[x + 1], k)
  {
    assert NextAt(run, x);
    var t: nat :| StepBy(run, x, t);
    RunInv(run, x);
    StepKeepsKey(run[x], run[x + 1], t, m, c, k);
    if !LiveAt(run[x + 1], m, c, k) {
      ErasedIsAbsent(run[x], run[x + 1], t, k);
    }
  }

  /** A find that reports nothing: at a state inside the call the key was in no cell. */
  lemma FindReportsAbsent(run: seq<State>, t: nat, k: nat, i: nat, e: nat) returns (y: nat)
    requires IsRun(run) && InCall(run, t, i, e)
    requires run[i].threads[t] == FindCell(Job(k, 0, 0, 0)) && run[e].threads[t] == FindEnd(k, None)
    ensures i <= y <= e && Absent(run[y], k)
  {
    y := i;
    if m: nat, c: nat :| LiveAt(run[i], m, c, k) {
      y := StaysOrAbsent(run, m, c, k, i, e);
      if StaysLive(run, m, c, k, i, e) {
        FindSucceeds(run, t, m, c, k, i, e);
      }
    }
  }

  lemma EraseSees(s: State, s': State, t: nat, k: nat)
    requires t < |s.threads| && Step(s, s', t) && t < |s'.threads| && s'.threads[t] == EraseEnd(k, true)
    ensures s.threads[t].EraseCas?
  {
  }

  /** Step y of thread t took k out of the map. */
  ghost predicate Erases(run: seq<State>, t: nat, k: nat, y: nat) {
    y + 1 < |run| && StepBy(run, y, t) && !Absent(run[y], k) && Absent(run[y + 1], k)
  }

  ghost predicate ErasesAt(run: seq<State>, t: nat, k: nat, y: nat) {
    forall x: nat | x == y :: Erases(run, t, k, x)
  }

  /** An erase that reports success erased the key by a step of its own: it was in a cell and
      then in none. */
  lemma {:induction false} EraseReportsErased(run: seq<State>, t: nat, k: nat, e: nat) returns (y: nat)
    requires IsRun(run) && e < |run| && t < |run[e].threads| && run[e].threads[t] == EraseEnd(k, true)
    ensures y < e && ErasesAt(run, t, k, y)
    ensures forall x | y < x <= e :: t < |run[x].threads| && run[x].threads[t] == EraseEnd(k, true)
    decreases e
  {
    y := 0;
    if e > 0 {
      OwnStep(run, e - 1, t);
      if run[e - 1].threads[t] == run[e].threads[t] {
        y := EraseReportsErased(run, t, k, e - 1);
      } else {
        y := e - 1;
        RunInv(run, y);
        EraseSees(run[y], run[e], t, k);
        ErasedIsAbsent(run[y], run[e], t, k);
      }
    }
  }

  /** An erase that reports failure: at a state inside the call the key was in no cell. */
  lemma EraseReportsAbsent(run: seq<State>, t: nat, k: nat, i: nat, e: nat) returns (y: nat)
    requires IsRun(run) && InCall(run, t, i, e)
    requires run[i].threads[t] == EraseBegin(k) && run[e].threads[t] == EraseEnd(k, false)
    ensures i <= y <= e && Absent(run[y], k)
  {
    y := i;
    if m: nat, c: nat :| LiveAt(run[i], m, c, k) {
      y := StaysOrAbsent(run, m, c, k, i, e);
      if StaysLive(run, m, c, k, i, e) {
        RunInv(run, i);
        assert CellOk(run[i], m, c);
        var n: nat :| HomeAt(run[i], m, k, c, n);
        EraseOnItsWay(run, t, m, c, k, n, i, e);
      }
    }
  }

  lemma InsertSees(s: State, s': State, t: nat, k: nat, m: nat, c: nat, inserted: bool)
    requires t < |s.threads| && Step(s, s', t) && t < |s'.threads| && s'.threads[t] == InsEnd(k, m, c, inserted)
    ensures s.threads[t] != s'.threads[t]
    ensures if inserted then s.threads[t].InsMark? else s.threads[t].InsCompare? && LiveAt(s, m, c, k)
    ensures inserted ==> JobFits(s, s.threads[t].j) && s.threads[t].j.k == k && s.threads[t].j.m == m && Spot(s, s.threads[t].j) == c
  {
  }

  /** Step y of thread t gave an insert its result. */
  ghost predicate Decides(run: seq<State>, t: nat, k: nat, m: nat, c: nat, inserted: bool, y: nat) {
    && y + 1 < |run| && StepBy(run, y, t)
    && if inserted then Absent(run[y], k) && LiveAt(run[y + 1], m, c, k) else LiveAt(run[y], m, c, k)
  }

  ghost predicate DecidedAt(run: seq<State>, t: nat, k: nat, m: nat, c: nat, inserted: bool, y: nat) {
    forall x: nat | x == y :: Decides(run, t, k, m, c, inserted, x)
  }

  /** An insert reports that it inserted exactly when it did: the key was nowhere and then, by a
      step of its own, in the cell it reports.  Otherwise it met the key there. */
  lemma {:induction false} InsertReports(run: seq<State>, t: nat, k: nat, m: nat, c: nat, inserted: bool, e: nat) returns (y: nat)
    requires IsRun(run) && e < |run| && t < |run[e].threads| && run[e].threads[t] == InsEnd(k, m, c, inserted)
    ensures y < e && DecidedAt(run, t, k, m, c, inserted, y) && SettledFrom(run, t, m, c, k, y + 1, e)
    decreases e
  {
    y := 0;
    if e > 0 {
      OwnStep(run, e - 1, t);
      if run[e - 1].threads[t] == run[e].threads[t] {
        y := InsertReports(run, t, k, m, c, inserted, e - 1);
      } else {
        y := InsertReportsNow(run, t, k, m, c, inserted, e - 1);
      }
    }
  }

  lemma InsertReportsNow(run: seq<State>, t: nat, k: nat, m: nat, c: nat, inserted: bool, e: nat) returns (y: nat)
    requires IsRun(run) && e + 1 < |run| && StepBy(run, e, t) && t < |run[e + 1].threads|
    requires run[e + 1].threads[t] == InsEnd(k, m, c, inserted)
    ensures y <= e && DecidedAt(run, t, k, m, c, inserted, y) && SettledFrom(run, t, m, c, k, y + 1, e + 1)
  {
    InsertSees(run[e], run[e + 1], t, k, m, c, inserted);
    y := e;
    if inserted {
      y := MarkReports(run, t, m, c, k, e);
    }
  }

  /** Where a thread past publishing published. */
  lemma {:induction false} MarkReports(run: seq<State>, t: nat, m: nat, c: nat, k: nat, e: nat) returns (y: nat)
    requires IsRun(run) && e < |run| && t < |run[e].threads| && (run[e].threads[t].InsMark? || run[e].threads[t].InsUnpendDone?)
    requires Settled(run[e], run[e].threads[t], m, c, k)
    ensures y < e && DecidedAt(run, t, k, m, c, true, y) && SettledFrom(run, t, m, c, k, y + 1, e)
    decreases e
  {
    y := 0;
    if e > 0 {
      OwnStep(run, e - 1, t);
      SettledEarlier(run, t, m, c, k, e - 1);
      if run[e - 1].threads[t].InsUnlock? {
        y := e - 1;
        InsertedIsLive(run, y, t);
      } else {
        y := MarkReports(run, t, m, c, k, e - 1);
      }
    }
  }

  lemma SettledEarlier(run: seq<State>, t: nat, m: nat, c: nat, k: nat, e: nat)
    requires IsRun(run) && e + 1 < |run| && t < |run[e].threads| && t < |run[e + 1].threads|
    requires run[e + 1].threads[t].InsMark? || run[e + 1].threads[t].InsUnpendDone?
    requires Settled(run[e + 1], run[e + 1].threads[t], m, c, k)
    requires run[e + 1].threads[t] == run[e].threads[t] || StepBy(run, e, t)
    ensures if run[e].threads[t].InsUnlock?
            then StepBy(run, e, t) && run[e + 1].threads[t].InsUnpendDone? && JobFits(run[e], run[e].threads[t].j)
                 && run[e].threads[t].j.k == k && run[e].threads[t].j.m == m && Spot(run[e], run[e].threads[t].j) == c
            else (run[e].threads[t].InsMark? || run[e].threads[t].InsUnpendDone?) && Settled(run[e], run[e].threads[t], m, c, k)
  {
    RunInv(run, e);
    assert PcOk(run[e], t, run[e].threads[t]);
    var u := RunEvolves(run, e);
    if InInsert(run[e].threads[t]) {
      var j := run[e].threads[t].j;
      assert Mono(run[e].maps[j.m], run[e + 1].maps[j.m]);
      if run[e + 1].threads[t] != run[e].threads[t] {
        MarkedFrom(run[e], run[e + 1], t, j);
      }
    } else if run[e + 1].threads[t] != run[e].threads[t] {
      NotSettled(run[e], run[e + 1], t);
    }
  }

  lemma MarkedFrom(s: State, s': State, t: nat, j: Job)
    requires t < |s.threads| && JobFits(s, j) && StepInsert(s, s', t, j) && InInsert(s.threads[t]) && s.threads[t].j == j
    requires t < |s'.threads| && (s'.threads[t].InsMark? || s'.threads[t].InsUnpendDone?)
    ensures s'.threads[t].j == j
    ensures if s'.threads[t].InsMark? then s.threads[t].InsUnpendDone? else s.threads[t].InsUnlock?
  {
  }

  predicate InInsertCall(pc: PC) {
    pc.InsBegin? || InInsert(pc) || pc.GrowLock? || pc.GrowStore? || pc.GrowPublish? || pc.GrowWait?
  }

  lemma InsertLeaves(s: State, s': State, t: nat)
    requires t < |s.threads| && Step(s, s', t) && InInsertCall(s.threads[t]) && t < |s'.threads| && s'.threads[t].Idle?
    ensures s.threads[t].GrowLock? && s.threads[t].next >= s.maxMaps
  {
  }

  /** An insert throws only when no more arrays may be made and every one of them has turned
      the key away. */
  lemma InsertThrowsOnlyWhenFull(run: seq<State>, e: nat, t: nat)
    requires IsRun(run) && e + 1 < |run| && t < |run[e].threads| && t < |run[e + 1].threads|
    requires InInsertCall(run[e].threads[t]) && run[e + 1].threads[t].Idle?
    ensures var s := run[e];
            && run[e].threads[t].GrowLock? && s.maxMaps <= s.numMaps <= |s.maps| && run[e].threads[t].k < |s.hash|
            && forall m: nat | m < s.maxMaps :: FullFor(s.maps[m], s.hash[run[e].threads[t].k], run[e].threads[t].k)
  {
    OwnStep(run, e, t);
    InsertLeaves(run[e], run[e + 1], t);
    RunInv(run, e);
    assert PcOk(run[e], t, run[e].threads[t]);
  }
}
