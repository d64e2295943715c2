/**
 * IndexedMemPool (folly/IndexedMemPool.h): striped bounded free lists of slot indices and
 * a global list of full lists, as a step system.  A step is one load, one compare-and-swap
 * or one store; a call of allocIndex or recycleIndex may use any stripe.
 *
 * The tag of a TaggedPtr is unbounded here: it does not wrap between a load and its
 * compare-and-swap.  `ledger` and `depth` are history: they are written by the steps and
 * never read by the code.
 */
module IndexedMemPool {
  /** uint32_t(-1), the localNext of an allocated slot. */
  const ALLOCATED: nat := 0xFFFF_FFFF

  // -------------------------------------------------------------- tagged heads

  datatype TaggedPtr = TaggedPtr(idx: nat, size: nat, tag: nat)
  {
    function WithIdx(repl: nat): TaggedPtr { TaggedPtr(repl, size, tag + 1) }
    function WithSize(repl: nat): TaggedPtr { this.(size := repl) }
    function WithSizeIncr(): TaggedPtr { this.(size := size + 1) }
    function WithSizeDecr(): TaggedPtr
      requires size > 0
    {
      this.(size := size - 1)
    }
    function WithEmpty(): TaggedPtr { WithIdx(0).WithSize(0) }
  }

  // ------------------------------------------------------------------- history

  datatype Where = Local(list: nat) | Global(level: nat) | Hand(thread: nat)

  datatype Place = Unborn | Client | At(where: Where, pos: nat)

  /** Who has which index.  A bag lists its indices bottom first; `place` is its inverse. */
  datatype Ledger = Ledger(bags: map<Where, seq<nat>>, place: seq<Place>)
  {
    function Bag(w: Where): seq<nat> { if w in bags then bags[w] else [] }
    function Top(w: Where): nat { Last(Bag(w)) }

    /** The top index of one bag goes on top of another. */
    function MoveTop(from: Where, to: Where): Ledger {
      var b := Bag(from);
      if |b| == 0 || Top(from) >= |place| then this
      else Ledger(bags[from := b[..|b| - 1]][to := Bag(to) + [Top(from)]], place[Top(from) := At(to, |Bag(to)|)])
    }

    /** A whole bag goes into an empty one. */
    function MoveAll(from: Where, to: Where): Ledger {
      Ledger(bags[from := []][to := Bag(from)],
             seq(|place|, x requires 0 <= x < |place| =>
               if place[x].At? && place[x].where == from then At(to, place[x].pos) else place[x]))
    }

    /** An index nobody's bag holds goes into a bag. */
    function Enter(x: nat, to: Where): Ledger {
      if x >= |place| then this
      else Ledger(bags[to := Bag(to) + [x]], place[x := At(to, |Bag(to)|)])
    }

    /** The top index of a bag goes to the client. */
    function Grant(from: Where): Ledger {
      var b := Bag(from);
      if |b| == 0 || Top(from) >= |place| then this
      else Ledger(bags[from := b[..|b| - 1]], place[Top(from) := Client])
    }
  }

  function Last(b: seq<nat>): nat { if |b| == 0 then 0 else b[|b| - 1] }

  // --------------------------------------------------------------------- state

  /** Where globalPush returns to: recycleIndex is done, localPop tries again. */
  datatype After = Done | Retry(list: nat)

  datatype PC =
    | Idle
    // localPop
    | PopLoad(list: nat)
    | PopRead(list: nat, h: TaggedPtr)
    | PopCas(list: nat, h: TaggedPtr, next: nat)
    | PopMark(idx: nat)
    | RefillRead(list: nat, h: TaggedPtr, idx: nat)
    | RefillCas(list: nat, h: TaggedPtr, idx: nat, next: nat)
    | SizeLoad
    | SizeIncr
    // globalPop
    | GlobalLoad(list: nat, h: TaggedPtr)
    | GlobalRead(list: nat, h: TaggedPtr, gh: TaggedPtr)
    | GlobalCas(list: nat, h: TaggedPtr, gh: TaggedPtr, next: nat)
    // localPush
    | PushLoad(list: nat, idx: nat)
    | PushWrite(list: nat, idx: nat, h: TaggedPtr)
    | PushCas(list: nat, idx: nat, h: TaggedPtr)
    | StealCas(list: nat, idx: nat, h: TaggedPtr)
    // globalPush
    | SpillLoad(idx: nat, after: After)
    | SpillWrite(idx: nat, after: After, gh: TaggedPtr)
    | SpillCas(idx: nat, after: After, gh: TaggedPtr)

  datatype State = State(
    limit: nat,                  // LocalListLimit
    cap: nat,                    // actualCapacity_
    size: nat,
    heads: seq<TaggedPtr>,       // local_[NumLocalLists]
    globalHead: TaggedPtr,
    localNext: seq<nat>,         // of slots_[0..actualCapacity_]
    globalNext: seq<nat>,
    threads: seq<PC>,
    // history
    ledger: Ledger,
    depth: nat)                  // number of lists in the global list

  function Goto(s: State, t: nat, pc: PC): State
    requires t < |s.threads|
  {
    s.(threads := s.threads[t := pc])
  }

  ghost predicate Init(s: State) {
    && s.limit <= 255 && s.cap < ALLOCATED && |s.heads| > 0 && s.size == 0 && s.depth == 0
    && s.heads == seq(|s.heads|, _ => TaggedPtr(0, 0, 0)) && s.globalHead == TaggedPtr(0, 0, 0)
    && s.localNext == seq(s.cap + 1, _ => 0) && s.globalNext == seq(s.cap + 1, _ => 0)
    && (forall t | 0 <= t < |s.threads| :: s.threads[t] == Idle)
    && s.ledger == Ledger(map[], seq(s.cap + 1, _ => Unborn))
  }

  // ------------------------------------------------------------------ localPop

  ghost predicate StepPopLoad(s: State, s': State, t: nat)
    requires t < |s.threads|
  {
    var pc := s.threads[t];
    && pc.PopLoad? && pc.list < |s.heads|
    && s' == Goto(s, t, if s.heads[pc.list].idx != 0 then PopRead(pc.list, s.heads[pc.list])
                        else GlobalLoad(pc.list, s.heads[pc.list]))
  }

  /** Reads the localNext of a slot that may be gone from the list by now. */
  ghost predicate StepPopRead(s: State, s': State, t: nat)
    requires t < |s.threads|
  {
    var pc := s.threads[t];
    && pc.PopRead? && SlotExists(s, pc.h.idx)
    && s' == Goto(s, t, PopCas(pc.list, pc.h, s.localNext[pc.h.idx]))
  }

  /** What slotIndex asserts. */
  predicate SlotExists(s: State, idx: nat) {
    0 < idx <= s.cap && idx <= s.size && idx < |s.localNext| && idx < |s.globalNext|
  }

  ghost predicate StepPopCas(s: State, s': State, t: nat)
    requires t < |s.threads|
  {
    var pc := s.threads[t];
    && pc.PopCas? && pc.list < |s.heads| && pc.h.size > 0
    && s' == if s.heads[pc.list] == pc.h
             then Goto(s.(heads := s.heads[pc.list := pc.h.WithIdx(pc.next).WithSizeDecr()],
                          ledger := s.ledger.MoveTop(Local(pc.list), Hand(t))), t, PopMark(pc.h.idx))
             else Goto(s, t, PopLoad(pc.list))
  }

  /** The index is the caller's. */
  ghost predicate StepPopMark(s: State, s': State, t: nat)
    requires t < |s.threads|
  {
    var pc := s.threads[t];
    && pc.PopMark? && SlotExists(s, pc.idx)
    && s' == Goto(s.(localNext := s.localNext[pc.idx := ALLOCATED], ledger := s.ledger.Grant(Hand(t))), t, Idle)
  }

  ghost predicate StepRefillRead(s: State, s': State, t: nat)
    requires t < |s.threads|
  {
    var pc := s.threads[t];
    && pc.RefillRead? && SlotExists(s, pc.idx)
    && s' == Goto(s, t, RefillCas(pc.list, pc.h, pc.idx, s.localNext[pc.idx]))
  }

  /** Installs a whole list but its head, or gives everything back to the global list. */
  ghost predicate StepRefillCas(s: State, s': State, t: nat)
    requires t < |s.threads|
  {
    var pc := s.threads[t];
    && pc.RefillCas? && pc.list < |s.heads|
    && s' == if s.heads[pc.list] == pc.h
             then Goto(s.(heads := s.heads[pc.list := pc.h.WithIdx(pc.next).WithSize(s.limit)],
                          ledger := s.ledger.MoveAll(Hand(t), Local(pc.list)).MoveTop(Local(pc.list), Hand(t))),
                       t, PopMark(pc.idx))
             else Goto(s, t, SpillLoad(pc.idx, Retry(pc.list)))
  }

  /** No slot left: allocIndex returns 0. */
  ghost predicate StepSizeLoad(s: State, s': State, t: nat)
    requires t < |s.threads|
  {
    && s.threads[t].SizeLoad?
    && s' == Goto(s, t, if s.size >= s.cap then Idle else SizeIncr)
  }

  ghost predicate StepSizeIncr(s: State, s': State, t: nat)
    requires t < |s.threads|
  {
    && s.threads[t].SizeIncr?
    && s' == if s.size + 1 > s.cap then Goto(s.(size := s.size + 1), t, Idle)
             else Goto(s.(size := s.size + 1, ledger := s.ledger.Enter(s.size + 1, Hand(t))), t, PopMark(s.size + 1))
  }

  // ----------------------------------------------------------------- globalPop

  ghost predicate StepGlobalLoad(s: State, s': State, t: nat)
    requires t < |s.threads|
  {
    var pc := s.threads[t];
    && pc.GlobalLoad?
    && s' == Goto(s, t, if s.globalHead.idx == 0 then SizeLoad else GlobalRead(pc.list, pc.h, s.globalHead))
  }

  ghost predicate StepGlobalRead(s: State, s': State, t: nat)
    requires t < |s.threads|
  {
    var pc := s.threads[t];
    && pc.GlobalRead? && SlotExists(s, pc.gh.idx)
    && s' == Goto(s, t, GlobalCas(pc.list, pc.h, pc.gh, s.globalNext[pc.gh.idx]))
  }

  ghost predicate StepGlobalCas(s: State, s': State, t: nat)
    requires t < |s.threads|
  {
    var pc := s.threads[t];
    && pc.GlobalCas? && (s.globalHead == pc.gh ==> s.depth > 0)
    && s' == if s.globalHead == pc.gh
             then Goto(s.(globalHead := pc.gh.WithIdx(pc.next), depth := s.depth - 1,
                          ledger := s.ledger.MoveAll(Global(s.depth - 1), Hand(t))),
                       t, RefillRead(pc.list, pc.h, pc.gh.idx))
             else Goto(s, t, GlobalLoad(pc.list, pc.h))
  }

  // ----------------------------------------------------------------- localPush

  ghost predicate StepPushLoad(s: State, s': State, t: nat)
    requires t < |s.threads|
  {
    var pc := s.threads[t];
    && pc.PushLoad? && pc.list < |s.heads|
    && s' == Goto(s, t, PushWrite(pc.list, pc.idx, s.heads[pc.list]))
  }

  ghost predicate StepPushWrite(s: State, s': State, t: nat)
    requires t < |s.threads|
  {
    var pc := s.threads[t];
    && pc.PushWrite? && SlotExists(s, pc.idx)
    && s' == Goto(s.(localNext := s.localNext[pc.idx := pc.h.idx]), t,
                  if pc.h.size == s.limit then StealCas(pc.list, pc.idx, pc.h) else PushCas(pc.list, pc.idx, pc.h))
  }

  /** A failing compare-and-swap reloads the head. */
  ghost predicate StepPushCas(s: State, s': State, t: nat)
    requires t < |s.threads|
  {
    var pc := s.threads[t];
    && pc.PushCas? && pc.list < |s.heads|
    && s' == if s.heads[pc.list] == pc.h
             then Goto(s.(heads := s.heads[pc.list := pc.h.WithIdx(pc.idx).WithSizeIncr()],
                          ledger := s.ledger.MoveTop(Hand(t), Local(pc.list))), t, Idle)
             else Goto(s, t, PushWrite(pc.list, pc.idx, s.heads[pc.list]))
  }

  /** The local list is full: takes all of it, under the index being recycled. */
  ghost predicate StepStealCas(s: State, s': State, t: nat)
    requires t < |s.threads|
  {
    var pc := s.threads[t];
    && pc.StealCas? && pc.list < |s.heads|
    && s' == if s.heads[pc.list] == pc.h
             then Goto(s.(heads := s.heads[pc.list := pc.h.WithEmpty()],
                          ledger := s.ledger.MoveTop(Hand(t), Local(pc.list)).MoveAll(Local(pc.list), Hand(t))),
                       t, SpillLoad(pc.idx, Done))
             else Goto(s, t, PushWrite(pc.list, pc.idx, s.heads[pc.list]))
  }

  // ---------------------------------------------------------------- globalPush

  ghost predicate StepSpillLoad(s: State, s': State, t: nat)
    requires t < |s.threads|
  {
    var pc := s.threads[t];
    && pc.SpillLoad?
    && s' == Goto(s, t, SpillWrite(pc.idx, pc.after, s.globalHead))
  }

  ghost predicate StepSpillWrite(s: State, s': State, t: nat)
    requires t < |s.threads|
  {
    var pc := s.threads[t];
    && pc.SpillWrite? && SlotExists(s, pc.idx)
    && s' == Goto(s.(globalNext := s.globalNext[pc.idx := pc.gh.idx]), t, SpillCas(pc.idx, pc.after, pc.gh))
  }

  function Continue(after: After): PC {
    match after
    case Done => Idle
    case Retry(list) => PopLoad(list)
  }

  ghost predicate StepSpillCas(s: State, s': State, t: nat)
    requires t < |s.threads|
  {
    var pc := s.threads[t];
    && pc.SpillCas?
    && s' == if s.globalHead == pc.gh
             then Goto(s.(globalHead := pc.gh.WithIdx(pc.idx), depth := s.depth + 1,
                          ledger := s.ledger.MoveAll(Hand(t), Global(s.depth))), t, Continue(pc.after))
             else Goto(s, t, SpillLoad(pc.idx, pc.after))
  }

  // ---------------------------------------------------------------------- runs

  ghost predicate StepAlloc(s: State, s': State, t: nat, list: nat)
    requires t < |s.threads|
  {
    s.threads[t].Idle? && list < |s.heads| && s' == Goto(s, t, PopLoad(list))
  }

  /** A client gives back an index it owns. */
  ghost predicate StepRecycle(s: State, s': State, t: nat, list: nat, idx: nat)
    requires t < |s.threads|
  {
    && s.threads[t].Idle? && list < |s.heads|
    && idx < |s.ledger.place| && s.ledger.place[idx].Client?
    && s' == Goto(s.(ledger := s.ledger.Enter(idx, Hand(t))), t, PushLoad(list, idx))
  }

  ghost predicate StepStart(s: State, s': State, t: nat)
    requires t < |s.threads|
  {
    || (exists list: nat :: StepAlloc(s, s', t, list))
    || (exists list: nat, idx: nat :: StepRecycle(s, s', t, list, idx))
  }

  ghost predicate Step(s: State, s': State, t: nat)
    requires t < |s.threads|
  {
    match s.threads[t]
    case Idle => StepStart(s, s', t)
    case PopLoad(_) => StepPopLoad(s, s', t)
    case PopRead(_, _) => StepPopRead(s, s', t)
    case PopCas(_, _, _) => StepPopCas(s, s', t)
    case PopMark(_) => StepPopMark(s, s', t)
    case RefillRead(_, _, _) => StepRefillRead(s, s', t)
    case RefillCas(_, _, _, _) => StepRefillCas(s, s', t)
    case SizeLoad => StepSizeLoad(s, s', t)
    case SizeIncr => StepSizeIncr(s, s', t)
    case GlobalLoad(_, _) => StepGlobalLoad(s, s', t)
    case GlobalRead(_, _, _) => StepGlobalRead(s, s', t)
    case GlobalCas(_, _, _, _) => StepGlobalCas(s, s', t)
    case PushLoad(_, _) => StepPushLoad(s, s', t)
    case PushWrite(_, _, _) => StepPushWrite(s, s', t)
    case PushCas(_, _, _) => StepPushCas(s, s', t)
    case StealCas(_, _, _) => StepStealCas(s, s', t)
    case SpillLoad(_, _) => StepSpillLoad(s, s', t)
    case SpillWrite(_, _, _) => StepSpillWrite(s, s', t)
    case SpillCas(_, _, _) => StepSpillCas(s, s', t)
  }

  ghost predicate StepBy(run: seq<State>, k: nat, t: nat)
    requires k + 1 < |run|
  {
    t < |run[k].threads| && Step(run[k], run[k + 1], t)
  }

  ghost predicate NextAt(run: seq<State>, k: nat)
    requires k + 1 < |run|
  {
    exists t: nat :: StepBy(run, k, t)
  }

  ghost predicate IsRun(run: seq<State>) {
    && |run| > 0 && Init(run[0])
    && forall k | 0 <= k < |run| - 1 :: NextAt(run, k)
  }

  // ------------------------------------------------------------------ capacity

  /** The constructor's actualCapacity_. */
  function MaxIndexForCapacity(capacity: nat, lists: nat, limit: nat): nat
    requires lists > 0
  {
    var boosted := capacity + (lists - 1) * limit;
    if boosted < ALLOCATED - 1 then boosted else ALLOCATED - 1
  }

  /** capacity(); the subtraction stays positive while the boost fits an index. */
  function CapacityForMaxIndex(maxIndex: nat, lists: nat, limit: nat): int {
    maxIndex - (lists - 1) * limit
  }
}
