/** LifoSem as a step system: a single atomic word that is either a count or the top
    of a stack of wait nodes, and a baton in every node for the handoff.  One step is
    one load, store, compare-and-swap, futex sleep or futex wake.

    The history part of the state (stack, owner, carrier, handed, noticed and the four
    counters) is never read by a step's guard, except that a node is allocated only if
    nobody owns it, which is what the node pool guarantees. */
module LifoSem {

  const MAX_VALUE: nat := 0xffff_ffff
  const SHUTDOWN_NOTICE: nat := 0xffff_ffff   // uint32_t(-1) in a node's next field

  /** LifoSemHead, unpacked.  data is the value, or the index of the top node. */
  datatype Head = Head(seqno: nat, shutdown: bool, isNode: bool, data: nat) {

    function WithPop(next: nat): Head {
      if next == 0 then Head(seqno + 1, shutdown, false, 0) else Head(seqno + 1, shutdown, true, next)
    }

    function WithPush(idx: nat): Head { Head(seqno, false, true, idx) }

    function WithValueIncr(delta: nat): Head {
      Head(seqno + 1, shutdown, false, if data + delta > MAX_VALUE then MAX_VALUE else data + delta)
    }

    function WithValueDecr(delta: nat): Head
      requires delta <= data
    {
      Head(seqno + 1, shutdown, false, data - delta)
    }

    function WithShutdown(): Head { this.(shutdown := true) }
  }

  datatype Baton = INIT | EARLY_DELIVERY | WAITING | LATE_DELIVERY

  datatype Node = Node(next: nat, baton: Baton)

  /** What a thread does once it has posted a node's baton. */
  datatype After = MorePosts(n: nat) | MoreShutdown(head: Head)

  datatype PC =
    | Idle
    // post(n): incrOrPop, then the popped node's baton
    | PostLoad(n: nat)
    | PostNext(n: nat, head: Head)
    | PostPop(n: nat, head: Head, next: nat)
    | PostIncr(n: nat, head: Head)
    | BatonLoad(idx: nat, after: After)
    | BatonCas(idx: nat, after: After)
    | BatonLate(idx: nat, after: After)
    | BatonWake(idx: nat, after: After)
    // tryWait(n), also as the first attempt of wait()
    | TryLoad(n: nat, blocking: bool)
    | TryCas(n: nat, head: Head, blocking: bool)
    // wait(): decrOrPush with a node, then the baton
    | NeedNode
    | PushLoad(idx: nat)
    | PushNext(idx: nat, head: Head)
    | PushCas(idx: nat, head: Head)
    | PushDecr(idx: nat, head: Head)
    | WaitSpin(idx: nat)
    | WaitCas(idx: nat)
    | WaitSleep(idx: nat)
    | WaitAsleep(idx: nat)
    | WaitCheck(idx: nat)
    | Woken(idx: nat)
    // shutdown()
    | ShutLoad
    | ShutCas(head: Head)
    | ShutLoop(head: Head)
    | ShutPop(head: Head, next: nat)
    | ShutNotice(idx: nat, head: Head)

  datatype State = State(
    head: Head,
    nodes: seq<Node>,          // nodes[0] is unused
    threads: seq<PC>,
    // history
    stack: seq<nat>,           // the wait list, top first
    owner: map<nat, nat>,      // allocated node -> thread waiting with it
    carrier: map<nat, nat>,    // popped but not yet posted node -> thread about to post it
    handed: set<nat>,          // popped with a unit, waiter not returned yet
    noticed: set<nat>,         // popped by shutdown, waiter not returned yet
    shutDone: bool,            // some shutdown() has returned
    initial: nat, posted: nat, taken: nat, lost: nat)

  function Goto(s: State, i: nat, pc: PC): State
    requires i < |s.threads|
  {
    s.(threads := s.threads[i := pc])
  }

  /** The node a waiting thread owns. */
  function OwnNode(pc: PC): (idx: nat) {
    match pc
    case PushLoad(idx) => idx
    case PushNext(idx, _) => idx
    case PushCas(idx, _) => idx
    case PushDecr(idx, _) => idx
    case WaitSpin(idx) => idx
    case WaitCas(idx) => idx
    case WaitSleep(idx) => idx
    case WaitAsleep(idx) => idx
    case WaitCheck(idx) => idx
    case Woken(idx) => idx
    case _ => 0
  }

  /** The node a thread has popped and must still post. */
  function Carried(pc: PC): (idx: nat) {
    match pc
    case BatonLoad(idx, _) => idx
    case BatonCas(idx, _) => idx
    case BatonLate(idx, _) => idx
    case ShutNotice(idx, _) => idx
    case _ => 0
  }

  ghost predicate Init(s: State) {
    && s.head == Head(0, false, false, s.initial) && s.initial <= MAX_VALUE
    && 0 < |s.nodes| < SHUTDOWN_NOTICE
    && (forall i | 0 <= i < |s.threads| :: s.threads[i] == Idle)
    && s.stack == [] && s.owner == map[] && s.carrier == map[] && s.handed == {} && s.noticed == {}
    && !s.shutDone && s.posted == 0 && s.taken == 0 && s.lost == 0
  }

  // ------------------------------------------------------------------ post

  /** incrOrPop loads the head. */
  ghost predicate StepPostLoad(s: State, s': State, i: nat)
    requires i < |s.threads|
  {
    && s.threads[i].PostLoad?
    && s' == Goto(s, i, if s.head.isNode then PostNext(s.threads[i].n, s.head) else PostIncr(s.threads[i].n, s.head))
  }

  /** Reads the top node's next field, which may be stale by now. */
  ghost predicate StepPostNext(s: State, s': State, i: nat)
    requires i < |s.threads|
  {
    && s.threads[i].PostNext? && s.threads[i].head.data < |s.nodes|
    && s' == Goto(s, i, PostPop(s.threads[i].n, s.threads[i].head, s.nodes[s.threads[i].head.data].next))
  }

  ghost predicate StepPostPop(s: State, s': State, i: nat)
    requires i < |s.threads|
  {
    var pc := s.threads[i];
    && pc.PostPop? && pc.n > 0
    && s' == if s.head == pc.head
             then Goto(s.(head := pc.head.WithPop(pc.next),
                          stack := if s.stack == [] then [] else s.stack[1..],
                          carrier := s.carrier[pc.head.data := i], handed := s.handed + {pc.head.data},
                          posted := s.posted + 1),
                       i, BatonLoad(pc.head.data, MorePosts(pc.n - 1)))
             else Goto(s, i, PostLoad(pc.n))
  }

  ghost predicate StepPostIncr(s: State, s': State, i: nat)
    requires i < |s.threads|
  {
    var pc := s.threads[i];
    && pc.PostIncr?
    && s' == if s.head == pc.head
             then Goto(s.(head := pc.head.WithValueIncr(pc.n), posted := s.posted + pc.n,
                          lost := s.lost + if pc.head.data + pc.n > MAX_VALUE
                                           then pc.head.data + pc.n - MAX_VALUE else 0), i, Idle)
             else Goto(s, i, PostLoad(pc.n))
  }

  /** Baton::post: load; INIT -> EARLY_DELIVERY by compare-and-swap; otherwise store
      LATE_DELIVERY and wake. */
  ghost predicate StepBatonLoad(s: State, s': State, i: nat)
    requires i < |s.threads|
  {
    var pc := s.threads[i];
    && pc.BatonLoad? && pc.idx < |s.nodes|
    && s' == Goto(s, i, if s.nodes[pc.idx].baton.INIT? then BatonCas(pc.idx, pc.after) else BatonLate(pc.idx, pc.after))
  }

  /** Where a poster goes when the baton has been passed. */
  function Continue(after: After): PC {
    match after
    case MorePosts(n) => if n == 0 then Idle else PostLoad(n)
    case MoreShutdown(h) => ShutLoop(h)
  }

  ghost predicate StepBatonCas(s: State, s': State, i: nat)
    requires i < |s.threads|
  {
    var pc := s.threads[i];
    && pc.BatonCas? && pc.idx < |s.nodes|
    && s' == if s.nodes[pc.idx].baton.INIT?
             then Goto(s.(nodes := s.nodes[pc.idx := s.nodes[pc.idx].(baton := EARLY_DELIVERY)],
                          carrier := s.carrier - {pc.idx}), i, Continue(pc.after))
             else Goto(s, i, BatonLate(pc.idx, pc.after))
  }

  ghost predicate StepBatonLate(s: State, s': State, i: nat)
    requires i < |s.threads|
  {
    var pc := s.threads[i];
    && pc.BatonLate? && pc.idx < |s.nodes|
    && s' == Goto(s.(nodes := s.nodes[pc.idx := s.nodes[pc.idx].(baton := LATE_DELIVERY)],
                     carrier := s.carrier - {pc.idx}), i, BatonWake(pc.idx, pc.after))
  }

  /** futexWake(1) on the node's address, whoever owns the node by now. */
  ghost predicate StepBatonWake(s: State, s': State, i: nat)
    requires i < |s.threads|
  {
    var pc := s.threads[i];
    && pc.BatonWake?
    && (|| (exists k :: 0 <= k < |s.threads| && s.threads[k] == WaitAsleep(pc.idx)
                        && s' == s.(threads := s.threads[i := Continue(pc.after)][k := WaitCheck(pc.idx)]))
        || ((forall k | 0 <= k < |s.threads| :: s.threads[k] != WaitAsleep(pc.idx))
            && s' == Goto(s, i, Continue(pc.after))))
  }

  // --------------------------------------------------------------- tryWait

  ghost predicate StepTryLoad(s: State, s': State, i: nat)
    requires i < |s.threads|
  {
    var pc := s.threads[i];
    && pc.TryLoad?
    && s' == Goto(s, i, if !s.head.isNode && s.head.data > 0 then TryCas(pc.n, s.head, pc.blocking)
                        else if pc.blocking then NeedNode else Idle)
  }

  ghost predicate StepTryCas(s: State, s': State, i: nat)
    requires i < |s.threads|
  {
    var pc := s.threads[i];
    && pc.TryCas?
    && var delta := if pc.n < pc.head.data then pc.n else pc.head.data;
       s' == if s.head == pc.head
             then Goto(s.(head := pc.head.WithValueDecr(delta), taken := s.taken + delta),
                       i, if pc.n == delta then Idle else TryLoad(pc.n - delta, pc.blocking))
             else Goto(s, i, TryLoad(pc.n, pc.blocking))
  }

  // ------------------------------------------------------------------ wait

  /** allocateNode: a free node, its notice cleared and its baton fresh. */
  ghost predicate StepAlloc(s: State, s': State, i: nat, idx: nat)
    requires i < |s.threads|
  {
    && s.threads[i].NeedNode?
    && 0 < idx < |s.nodes| && idx !in s.owner
    && s' == Goto(s.(nodes := s.nodes[idx := Node(0, INIT)], owner := s.owner[idx := i]), i, PushLoad(idx))
  }

  /** decrOrPush loads the head; when it would block after shutdown the node is recycled. */
  ghost predicate StepPushLoad(s: State, s': State, i: nat)
    requires i < |s.threads|
  {
    var pc := s.threads[i];
    && pc.PushLoad?
    && s' == if !s.head.isNode && s.head.data > 0 then Goto(s, i, PushDecr(pc.idx, s.head))
             else if s.head.shutdown then Goto(s.(owner := s.owner - {pc.idx}), i, Idle)
             else Goto(s, i, PushNext(pc.idx, s.head))
  }

  function Link(h: Head): nat { if h.isNode then h.data else 0 }

  ghost predicate StepPushNext(s: State, s': State, i: nat)
    requires i < |s.threads|
  {
    var pc := s.threads[i];
    && pc.PushNext? && pc.idx < |s.nodes|
    && s' == Goto(s.(nodes := s.nodes[pc.idx := s.nodes[pc.idx].(next := Link(pc.head))]), i, PushCas(pc.idx, pc.head))
  }

  ghost predicate StepPushCas(s: State, s': State, i: nat)
    requires i < |s.threads|
  {
    var pc := s.threads[i];
    && pc.PushCas?
    && s' == if s.head == pc.head
             then Goto(s.(head := pc.head.WithPush(pc.idx), stack := [pc.idx] + s.stack), i, WaitSpin(pc.idx))
             else Goto(s, i, PushLoad(pc.idx))
  }

  ghost predicate StepPushDecr(s: State, s': State, i: nat)
    requires i < |s.threads|
  {
    var pc := s.threads[i];
    && pc.PushDecr? && pc.head.data > 0
    && s' == if s.head == pc.head
             then Goto(s.(head := pc.head.WithValueDecr(1), taken := s.taken + 1, owner := s.owner - {pc.idx}), i, Idle)
             else Goto(s, i, PushLoad(pc.idx))
  }

  /** spinWaitForEarlyDelivery: one try_wait, after which it may spin again or give up. */
  ghost predicate StepWaitSpin(s: State, s': State, i: nat)
    requires i < |s.threads|
  {
    var pc := s.threads[i];
    && pc.WaitSpin? && pc.idx < |s.nodes|
    && if s.nodes[pc.idx].baton.EARLY_DELIVERY? then s' == Goto(s, i, Woken(pc.idx))
       else s' == s || s' == Goto(s, i, WaitCas(pc.idx))
  }

  ghost predicate StepWaitCas(s: State, s': State, i: nat)
    requires i < |s.threads|
  {
    var pc := s.threads[i];
    && pc.WaitCas? && pc.idx < |s.nodes|
    && s' == if s.nodes[pc.idx].baton.INIT?
             then Goto(s.(nodes := s.nodes[pc.idx := s.nodes[pc.idx].(baton := WAITING)]), i, WaitSleep(pc.idx))
             else Goto(s, i, Woken(pc.idx))
  }

  ghost predicate StepWaitSleep(s: State, s': State, i: nat)
    requires i < |s.threads|
  {
    var pc := s.threads[i];
    && pc.WaitSleep? && pc.idx < |s.nodes|
    && s' == Goto(s, i, if s.nodes[pc.idx].baton.WAITING? then WaitAsleep(pc.idx) else WaitCheck(pc.idx))
  }

  ghost predicate StepSpurious(s: State, s': State, i: nat)
    requires i < |s.threads|
  {
    s.threads[i].WaitAsleep? && s' == Goto(s, i, WaitCheck(s.threads[i].idx))
  }

  ghost predicate StepWaitCheck(s: State, s': State, i: nat)
    requires i < |s.threads|
  {
    var pc := s.threads[i];
    && pc.WaitCheck? && pc.idx < |s.nodes|
    && s' == Goto(s, i, if s.nodes[pc.idx].baton.LATE_DELIVERY? then Woken(pc.idx) else WaitSleep(pc.idx))
  }

  /** Reads the notice, recycles the node and returns or throws. */
  ghost predicate StepWoken(s: State, s': State, i: nat)
    requires i < |s.threads|
  {
    var pc := s.threads[i];
    && pc.Woken? && pc.idx < |s.nodes|
    && s' == Goto(s.(owner := s.owner - {pc.idx}, handed := s.handed - {pc.idx}, noticed := s.noticed - {pc.idx},
                     taken := s.taken + if s.nodes[pc.idx].next == SHUTDOWN_NOTICE then 0 else 1), i, Idle)
  }

  // -------------------------------------------------------------- shutdown

  ghost predicate StepShutLoad(s: State, s': State, i: nat)
    requires i < |s.threads|
  {
    && s.threads[i].ShutLoad?
    && s' == Goto(s, i, if s.head.shutdown then ShutLoop(s.head) else ShutCas(s.head))
  }

  ghost predicate StepShutCas(s: State, s': State, i: nat)
    requires i < |s.threads|
  {
    var pc := s.threads[i];
    && pc.ShutCas?
    && s' == if s.head == pc.head then Goto(s.(head := pc.head.WithShutdown()), i, ShutLoop(pc.head.WithShutdown()))
             else Goto(s, i, if s.head.shutdown then ShutLoop(s.head) else ShutCas(s.head))
  }

  /** Returns when the head it knows is no node; otherwise reads that node's next. */
  ghost predicate StepShutLoop(s: State, s': State, i: nat)
    requires i < |s.threads|
  {
    var pc := s.threads[i];
    && pc.ShutLoop? && (pc.head.isNode ==> pc.head.data < |s.nodes|)
    && s' == if !pc.head.isNode then Goto(s.(shutDone := true), i, Idle)
             else Goto(s, i, ShutPop(pc.head, s.nodes[pc.head.data].next))
  }

  ghost predicate StepShutPop(s: State, s': State, i: nat)
    requires i < |s.threads|
  {
    var pc := s.threads[i];
    && pc.ShutPop?
    && s' == if s.head == pc.head
             then Goto(s.(head := pc.head.WithPop(pc.next),
                          stack := if s.stack == [] then [] else s.stack[1..],
                          carrier := s.carrier[pc.head.data := i], noticed := s.noticed + {pc.head.data}),
                       i, ShutNotice(pc.head.data, pc.head.WithPop(pc.next)))
             else Goto(s, i, ShutLoop(s.head))
  }

  ghost predicate StepShutNotice(s: State, s': State, i: nat)
    requires i < |s.threads|
  {
    var pc := s.threads[i];
    && pc.ShutNotice? && pc.idx < |s.nodes|
    && s' == Goto(s.(nodes := s.nodes[pc.idx := s.nodes[pc.idx].(next := SHUTDOWN_NOTICE)]),
                  i, BatonLoad(pc.idx, MoreShutdown(pc.head)))
  }

  /** Entering post(n), tryWait(n), wait() or shutdown(). */
  ghost predicate StepStart(s: State, s': State, i: nat, n: nat)
    requires i < |s.threads|
  {
    && s.threads[i].Idle? && n > 0
    && (|| s' == Goto(s, i, PostLoad(n)) || s' == Goto(s, i, TryLoad(n, false))
        || s' == Goto(s, i, TryLoad(1, true)) || s' == Goto(s, i, ShutLoad))
  }

  /** What thread i may do next; a sleeper can only wake spuriously by itself. */
  ghost predicate Step(s: State, s': State, i: nat)
    requires i < |s.threads|
  {
    match s.threads[i]
    case Idle => exists n: nat :: StepStart(s, s', i, n)
    case PostLoad(_) => StepPostLoad(s, s', i)
    case PostNext(_, _) => StepPostNext(s, s', i)
    case PostPop(_, _, _) => StepPostPop(s, s', i)
    case PostIncr(_, _) => StepPostIncr(s, s', i)
    case BatonLoad(_, _) => StepBatonLoad(s, s', i)
    case BatonCas(_, _) => StepBatonCas(s, s', i)
    case BatonLate(_, _) => StepBatonLate(s, s', i)
    case BatonWake(_, _) => StepBatonWake(s, s', i)
    case TryLoad(_, _) => StepTryLoad(s, s', i)
    case TryCas(_, _, _) => StepTryCas(s, s', i)
    case NeedNode => exists idx: nat :: StepAlloc(s, s', i, idx)
    case PushLoad(_) => StepPushLoad(s, s', i)
    case PushNext(_, _) => StepPushNext(s, s', i)
    case PushCas(_, _) => StepPushCas(s, s', i)
    case PushDecr(_, _) => StepPushDecr(s, s', i)
    case WaitSpin(_) => StepWaitSpin(s, s', i)
    case WaitCas(_) => StepWaitCas(s, s', i)
    case WaitSleep(_) => StepWaitSleep(s, s', i)
    case WaitAsleep(_) => StepSpurious(s, s', i)
    case WaitCheck(_) => StepWaitCheck(s, s', i)
    case Woken(_) => StepWoken(s, s', i)
    case ShutLoad => StepShutLoad(s, s', i)
    case ShutCas(_) => StepShutCas(s, s', i)
    case ShutLoop(_) => StepShutLoop(s, s', i)
    case ShutPop(_, _) => StepShutPop(s, s', i)
    case ShutNotice(_, _) => StepShutNotice(s, s', i)
  }

  ghost predicate Next(s: State, s': State) {
    exists i :: 0 <= i < |s.threads| && Step(s, s', i)
  }

  ghost predicate NextAt(run: seq<State>, k: nat)
    requires k + 1 < |run|
  {
    Next(run[k], run[k + 1])
  }

  ghost predicate IsRun(run: seq<State>) {
    && |run| > 0 && Init(run[0])
    && forall k | 0 <= k < |run| - 1 :: NextAt(run, k)
  }
}
