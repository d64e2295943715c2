/**
 * AtomicHashMap over AtomicHashArray (folly/AtomicHashMap-inl.h, folly/AtomicHashArray-inl.h)
 * as a step system: insert, find and erase on a growing sequence of linear-probing arrays.
 * A step is one load, store, compare-and-swap or counter update.
 *
 * Thread-cached counters act as atomic integers, except that the approximate count that
 * decides whether an insert declares its array full is any count at all.  Value
 * constructors do not throw.  `holder`, `inside`, `closed` and `builder` are history: they
 * are written by the steps and never read by the code.
 */
module AtomicHashMap {
  import opened Common

  // --------------------------------------------------------------------- probing

  function NextPowTwo(n: nat): (r: nat)
    requires n > 0
    ensures r >= n
  {
    PowTwoFrom(1, n)
  }

  function PowTwoFrom(p: nat, n: nat): (r: nat)
    requires p > 0
    ensures r >= n && r >= p
    decreases n - p
  {
    if p >= n then p else PowTwoFrom(2 * p, n)
  }

  /** keyToAnchorIdx of a key's hash value. */
  function Anchor(hash: nat, capacity: nat): (r: nat)
    requires capacity > 0
    ensures r < capacity
  {
    var probe := hash % NextPowTwo(capacity);
    if probe < capacity then probe else hash % capacity
  }

  /** The n-th cell probed: probeNext wraps by subtraction. */
  function Probe(anchor: nat, capacity: nat, n: nat): (r: nat)
    requires anchor < capacity && n < capacity
    ensures r < capacity
  {
    if anchor + n < capacity then anchor + n else anchor + n - capacity
  }

  // ----------------------------------------------------------------------- state

  datatype Cell = Empty | Locked(holder: nat) | Key(key: nat) | Erased

  datatype SubMap = SubMap(
    cells: seq<Cell>,
    pending: nat,        // numPendingEntries_
    isFull: nat,         // 0, NO_NEW_INSERTS or NO_PENDING_INSERTS
    // history
    inside: set<nat>,    // threads counted in pending
    closed: bool)        // isFull was set with nothing pending

  const NO_NEW_INSERTS: nat := 1
  const NO_PENDING_INSERTS: nat := 2

  /** A key, the bound of the loop over sub-maps, the sub-map and the number of probes. */
  datatype Job = Job(k: nat, next: nat, m: nat, n: nat)

  datatype PC =
    | Idle
    // AtomicHashMap::insertInternal
    | InsBegin(k: nat)
    | GrowLock(k: nat, next: nat)
    | GrowStore(k: nat, next: nat)
    | GrowPublish(k: nat, next: nat)
    | GrowWait(k: nat, next: nat)
    | InsEnd(k: nat, m: nat, idx: nat, inserted: bool)
    // AtomicHashArray::insertInternal
    | InsCell(j: Job)
    | InsPend(j: Job)
    | InsFullCheck(j: Job)
    | InsUnpendFull(j: Job)
    | InsSpin(j: Job)
    | InsSpinPending(j: Job)
    | InsClose(j: Job)
    | InsReload(j: Job)
    | InsTryLock(j: Job)
    | InsUnlock(j: Job)
    | InsUnpendDone(j: Job)
    | InsMark(j: Job)
    | InsUnpend(j: Job)
    | InsWait(j: Job)
    | InsCompare(j: Job)
    // find
    | FindCell(j: Job)
    | FindMaps(k: nat)
    | FindEnd(k: nat, found: Option<(nat, nat)>)
    // erase
    | EraseBegin(k: nat)
    | EraseCell(j: Job)
    | EraseCas(j: Job)
    | EraseEnd(k: nat, erased: bool)

  datatype State = State(
    hash: seq<nat>,              // HashFcn on the keys 0..|hash|-1
    maxMaps: nat,                // kNumSubMaps_, or 1 if the growth factor is too small
    maps: seq<SubMap>,           // the non-null, unlocked subMaps_
    numMaps: nat,                // numMapsAllocated_
    building: bool,              // subMaps_[|maps|] is locked
    threads: seq<PC>,
    // history
    builder: Option<nat>)        // the thread between tryLockMap and publishing

  function Goto(s: State, t: nat, pc: PC): State
    requires t < |s.threads|
  {
    s.(threads := s.threads[t := pc])
  }

  function NewSubMap(capacity: nat): SubMap { SubMap(seq(capacity, _ => Empty), 0, 0, {}, false) }

  ghost predicate Init(s: State) {
    && s.maxMaps > 0 && s.numMaps == 1 && !s.building && s.builder == None
    && |s.maps| == 1 && |s.maps[0].cells| > 0 && s.maps[0] == NewSubMap(|s.maps[0].cells|)
    && (forall t | 0 <= t < |s.threads| :: s.threads[t] == Idle)
  }

  /** The job names a cell. */
  predicate JobFits(s: State, j: Job) {
    j.k < |s.hash| && j.m < |s.maps| && j.n < |s.maps[j.m].cells|
  }

  function Spot(s: State, j: Job): (idx: nat)
    requires JobFits(s, j)
    ensures idx < |s.maps[j.m].cells|
  {
    var cap := |s.maps[j.m].cells|;
    Probe(Anchor(s.hash[j.k], cap), cap, j.n)
  }

  function CellOf(s: State, j: Job): Cell
    requires JobFits(s, j)
  {
    s.maps[j.m].cells[Spot(s, j)]
  }

  function SetCell(s: State, j: Job, c: Cell): State
    requires JobFits(s, j)
  {
    s.(maps := s.maps[j.m := s.maps[j.m].(cells := s.maps[j.m].cells[Spot(s, j) := c])])
  }

  function SetMap(s: State, m: nat, sub: SubMap): State
    requires m < |s.maps|
  {
    s.(maps := s.maps[m := sub])
  }

  // ---------------------------------------------------------------------- insert

  /** The array has no room for the key: the next one, a new one, or all over again. */
  function InsFull(s: State, j: Job): PC {
    if j.m + 1 < j.next then InsCell(Job(j.k, j.next, j.m + 1, 0))
    else if j.m + 1 == j.next then GrowLock(j.k, j.next)
    else InsBegin(j.k)
  }

  /** The probe after one that met another key. */
  function InsNext(s: State, j: Job): PC
    requires JobFits(s, j)
  {
    if j.n + 1 >= |s.maps[j.m].cells| then InsFull(s, j) else InsCell(j.(n := j.n + 1))
  }

  ghost predicate StepInsBegin(s: State, s': State, t: nat)
    requires t < |s.threads|
  {
    && s.threads[t].InsBegin?
    && s' == Goto(s, t, InsCell(Job(s.threads[t].k, s.numMaps, 0, 0)))
  }

  /** Steps of AtomicHashArray::insertInternal on the cell and counters of job j. */
  ghost predicate StepInsert(s: State, s': State, t: nat, j: Job)
    requires t < |s.threads| && JobFits(s, j)
  {
    var sub := s.maps[j.m];
    match s.threads[t]
    case InsCell(_) => s' == Goto(s, t, if CellOf(s, j).Empty? then InsPend(j) else InsWait(j))
    case InsPend(_) =>
      s' == Goto(SetMap(s, j.m, sub.(pending := sub.pending + 1, inside := sub.inside + {t})), t, InsFullCheck(j))
    case InsFullCheck(_) => s' == Goto(s, t, if sub.isFull != 0 then InsUnpendFull(j) else InsTryLock(j))
    case InsUnpendFull(_) => sub.pending > 0 && s' == Goto(Unpend(s, t, j.m), t, InsSpin(j))
    case InsSpin(_) => s' == Goto(s, t, if sub.isFull == NO_PENDING_INSERTS then InsClose(j) else InsSpinPending(j))
    case InsSpinPending(_) =>
      s' == if sub.pending == 0 then Goto(SetMap(s, j.m, sub.(closed := true)), t, InsClose(j)) else Goto(s, t, InsSpin(j))
    case InsClose(_) => s' == Goto(SetMap(s, j.m, sub.(isFull := NO_PENDING_INSERTS)), t, InsReload(j))
    case InsReload(_) => s' == Goto(s, t, if CellOf(s, j).Empty? then InsFull(s, j) else InsWait(j))
    case InsTryLock(_) =>
      s' == if CellOf(s, j).Empty? then Goto(SetCell(s, j, Locked(t)), t, InsUnlock(j)) else Goto(s, t, InsUnpend(j))
    case InsUnlock(_) => s' == Goto(SetCell(s, j, Key(j.k)), t, InsUnpendDone(j))
    case InsUnpendDone(_) => sub.pending > 0 && s' == Goto(Unpend(s, t, j.m), t, InsMark(j))
    case InsMark(_) =>
      || s' == Goto(s, t, InsEnd(j.k, j.m, Spot(s, j), true))
      || s' == Goto(SetMap(s, j.m, sub.(isFull := NO_NEW_INSERTS)), t, InsEnd(j.k, j.m, Spot(s, j), true))
    case InsUnpend(_) => sub.pending > 0 && s' == Goto(Unpend(s, t, j.m), t, InsWait(j))
    case InsWait(_) => s' == if CellOf(s, j).Locked? then s else Goto(s, t, InsCompare(j))
    case InsCompare(_) =>
      s' == Goto(s, t, if CellOf(s, j) == Key(j.k) then InsEnd(j.k, j.m, Spot(s, j), false)
                       else if CellOf(s, j).Empty? || CellOf(s, j).Locked? then InsCell(j)
                       else InsNext(s, j))
    case _ => false
  }

  function Unpend(s: State, t: nat, m: nat): State
    requires m < |s.maps| && s.maps[m].pending > 0
  {
    SetMap(s, m, s.maps[m].(pending := s.maps[m].pending - 1, inside := s.maps[m].inside - {t}))
  }

  // ------------------------------------------------------------------ a new array

  /** tryLockMap, or the exception when no more arrays may be made. */
  ghost predicate StepGrowLock(s: State, s': State, t: nat)
    requires t < |s.threads|
  {
    var pc := s.threads[t];
    && pc.GrowLock?
    && s' == if pc.next >= s.maxMaps then Goto(s, t, Idle)
             else if pc.next == |s.maps| && !s.building then Goto(s.(building := true, builder := Some(t)), t, GrowStore(pc.k, pc.next))
             else Goto(s, t, GrowWait(pc.k, pc.next))
  }

  ghost predicate StepGrowStore(s: State, s': State, t: nat, capacity: nat)
    requires t < |s.threads|
  {
    var pc := s.threads[t];
    && pc.GrowStore? && capacity > 0
    && s' == Goto(s.(maps := s.maps + [NewSubMap(capacity)], building := false), t, GrowPublish(pc.k, pc.next))
  }

  ghost predicate StepGrowPublish(s: State, s': State, t: nat)
    requires t < |s.threads|
  {
    var pc := s.threads[t];
    && pc.GrowPublish?
    && s' == Goto(s.(numMaps := s.numMaps + 1, builder := None), t, InsCell(Job(pc.k, pc.next, pc.next, 0)))
  }

  ghost predicate StepGrowWait(s: State, s': State, t: nat)
    requires t < |s.threads|
  {
    var pc := s.threads[t];
    && pc.GrowWait?
    && s' == if pc.next < s.numMaps then Goto(s, t, InsCell(Job(pc.k, pc.next, pc.next, 0))) else s
  }

  // ------------------------------------------------------------------------ find

  /** The key is not in this array. */
  function FindNext(j: Job): PC {
    if j.m == 0 then FindMaps(j.k)
    else if j.m + 1 < j.next then FindCell(Job(j.k, j.next, j.m + 1, 0))
    else FindEnd(j.k, None)
  }

  ghost predicate StepFindCell(s: State, s': State, t: nat, j: Job)
    requires t < |s.threads| && JobFits(s, j)
  {
    && s.threads[t].FindCell?
    && s' == Goto(s, t, if CellOf(s, j) == Key(j.k) then FindEnd(j.k, Some((j.m, Spot(s, j))))
                        else if CellOf(s, j).Empty? || j.n + 1 >= |s.maps[j.m].cells| then FindNext(j)
                        else FindCell(j.(n := j.n + 1)))
  }

  ghost predicate StepFindMaps(s: State, s': State, t: nat)
    requires t < |s.threads|
  {
    var pc := s.threads[t];
    && pc.FindMaps?
    && s' == Goto(s, t, if 1 < s.numMaps then FindCell(Job(pc.k, s.numMaps, 1, 0)) else FindEnd(pc.k, None))
  }

  // ----------------------------------------------------------------------- erase

  ghost predicate StepEraseBegin(s: State, s': State, t: nat)
    requires t < |s.threads|
  {
    && s.threads[t].EraseBegin?
    && s' == Goto(s, t, EraseCell(Job(s.threads[t].k, s.numMaps, 0, 0)))
  }

  function EraseNext(j: Job): PC {
    if j.m + 1 < j.next then EraseCell(Job(j.k, j.next, j.m + 1, 0)) else EraseEnd(j.k, false)
  }

  ghost predicate StepEraseCell(s: State, s': State, t: nat, j: Job)
    requires t < |s.threads| && JobFits(s, j)
  {
    && s.threads[t].EraseCell?
    && s' == Goto(s, t, if CellOf(s, j).Empty? || CellOf(s, j).Locked? then EraseNext(j)
                        else if CellOf(s, j) == Key(j.k) then EraseCas(j)
                        else if j.n + 1 >= |s.maps[j.m].cells| then EraseNext(j)
                        else EraseCell(j.(n := j.n + 1)))
  }

  ghost predicate StepEraseCas(s: State, s': State, t: nat, j: Job)
    requires t < |s.threads| && JobFits(s, j)
  {
    && s.threads[t].EraseCas?
    && s' == if CellOf(s, j) == Key(j.k) then Goto(SetCell(s, j, Erased), t, EraseEnd(j.k, true))
             else Goto(s, t, EraseNext(j))
  }

  // ------------------------------------------------------------------------ runs

  ghost predicate StepStart(s: State, s': State, t: nat, k: nat)
    requires t < |s.threads|
  {
    && s.threads[t].Idle? && k < |s.hash|
    && (|| s' == Goto(s, t, InsBegin(k))
        || s' == Goto(s, t, FindCell(Job(k, 0, 0, 0)))
        || s' == Goto(s, t, EraseBegin(k)))
  }

  /** Inside AtomicHashArray::insertInternal. */
  predicate InInsert(pc: PC) {
    || pc.InsCell? || pc.InsPend? || pc.InsFullCheck? || pc.InsUnpendFull? || pc.InsSpin? || pc.InsSpinPending?
    || pc.InsClose? || pc.InsReload? || pc.InsTryLock? || pc.InsUnlock? || pc.InsUnpendDone? || pc.InsMark?
    || pc.InsUnpend? || pc.InsWait? || pc.InsCompare?
  }

  ghost predicate Step(s: State, s': State, t: nat)
    requires t < |s.threads|
  {
    if InInsert(s.threads[t]) then JobFits(s, s.threads[t].j) && StepInsert(s, s', t, s.threads[t].j)
    else StepElsewhere(s, s', t)
  }

  ghost predicate StepElsewhere(s: State, s': State, t: nat)
    requires t < |s.threads|
  {
    match s.threads[t]
    case Idle => exists k: nat :: StepStart(s, s', t, k)
    case InsEnd(_, _, _, _) => s' == Goto(s, t, Idle)
    case FindEnd(_, _) => s' == Goto(s, t, Idle)
    case EraseEnd(_, _) => s' == Goto(s, t, Idle)
    case InsBegin(_) => StepInsBegin(s, s', t)
    case GrowLock(_, _) => StepGrowLock(s, s', t)
    case GrowStore(_, _) => exists capacity: nat :: StepGrowStore(s, s', t, capacity)
    case GrowPublish(_, _) => StepGrowPublish(s, s', t)
    case GrowWait(_, _) => StepGrowWait(s, s', t)
    case FindCell(j) => JobFits(s, j) && StepFindCell(s, s', t, j)
    case FindMaps(_) => StepFindMaps(s, s', t)
    case EraseBegin(_) => StepEraseBegin(s, s', t)
    case EraseCell(j) => JobFits(s, j) && StepEraseCell(s, s', t, j)
    case EraseCas(j) => JobFits(s, j) && StepEraseCas(s, s', t, j)
    case _ => false
  }

  ghost predicate StepBy(run: seq<State>, k: nat, t: nat)
    requires k + 1 < |run|
  {
    t < |run[k].threads| && Step(run[k], run[k + 1], t)
  }

  ghost predicate NextAt(run: seq<State>, k: nat)
    requires k + 1 < |run|
  {
    exists t: nat :: StepBy(run, k, t)
  }

  ghost predicate IsRun(run: seq<State>) {
    && |run| > 0 && Init(run[0])
    && forall k | 0 <= k < |run| - 1 :: NextAt(run, k)
  }
}
