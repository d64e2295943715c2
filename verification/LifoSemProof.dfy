/** What every run of the LifoSem step system keeps. */
module LifoSemProof {
  import opened LifoSem

  // ---------------------------------------------------------- the invariant

  /** A remembered head that was current at some earlier instant.  Pushes do not bump
      the sequence number, but while it stands still nothing leaves the list. */
  ghost predicate StaleOk(s: State, h: Head) {
    && h.seqno <= s.head.seqno
    && (h.shutdown ==> s.head.shutdown)
    && (h.isNode ==> 0 < h.data < |s.nodes|)
    && (h.isNode && h.seqno == s.head.seqno ==> h.data in s.stack)
  }

  /** The head shutdown() works with. */
  ghost predicate ShutHeadOk(s: State, h: Head) {
    StaleOk(s, h) && h.shutdown && (!h.isNode ==> s.stack == [])
  }

  /** The next field read for a pop is the right one if the pop can still succeed. */
  ghost predicate NextOk(s: State, h: Head, next: nat) {
    h.isNode && 0 < h.data < |s.nodes| && (s.head == h ==> next == s.nodes[h.data].next)
  }

  ghost predicate AfterOk(s: State, after: After) {
    after.MoreShutdown? ==> ShutHeadOk(s, after.head)
  }

  /** A popped node travels with its unit, or with a notice already written. */
  ghost predicate CargoOk(s: State, idx: nat, after: After) {
    && 0 < idx < |s.nodes| && AfterOk(s, after)
    && (after.MorePosts? ==> idx in s.handed)
    && (after.MoreShutdown? ==> idx in s.noticed && s.nodes[idx].next == SHUTDOWN_NOTICE)
  }

  ghost predicate PcOk(s: State, pc: PC) {
    match pc
    case PostLoad(n) => n > 0
    case PostNext(n, h) => n > 0 && h.isNode && StaleOk(s, h)
    case PostPop(n, h, next) => n > 0 && StaleOk(s, h) && NextOk(s, h, next)
    case PostIncr(n, h) => n > 0 && !h.isNode
    case BatonLoad(idx, after) => CargoOk(s, idx, after)
    case BatonCas(idx, after) => CargoOk(s, idx, after)
    case BatonLate(idx, after) => CargoOk(s, idx, after) && !s.nodes[idx].baton.INIT?
    case BatonWake(idx, after) => 0 < idx < |s.nodes| && AfterOk(s, after)
    case TryLoad(n, _) => n > 0
    case TryCas(n, h, _) => n > 0 && !h.isNode && h.data > 0
    case PushNext(idx, h) => !h.shutdown && Link(h) < |s.nodes| && (!h.isNode ==> h.data == 0)
    case PushCas(idx, h) =>
      && !h.shutdown && (!h.isNode ==> h.data == 0)
      && 0 < idx < |s.nodes| && s.nodes[idx].next == Link(h)
    case PushDecr(idx, h) => !h.isNode && h.data > 0
    case ShutCas(h) => !h.shutdown
    case ShutLoop(h) => ShutHeadOk(s, h)
    case ShutPop(h, next) => ShutHeadOk(s, h) && NextOk(s, h, next)
    case ShutNotice(idx, h) => 0 < idx < |s.nodes| && idx in s.noticed && ShutHeadOk(s, h)
    case _ => true
  }

  ghost predicate ThreadsOk(s: State) {
    forall i | 0 <= i < |s.threads| :: PcOk(s, s.threads[i])
  }

  predicate BeforePush(pc: PC) { pc.PushLoad? || pc.PushNext? || pc.PushCas? || pc.PushDecr? }

  predicate Spinning(pc: PC) { pc.WaitSpin? || pc.WaitCas? }

  predicate Sleeping(pc: PC) { pc.WaitSleep? || pc.WaitAsleep? || pc.WaitCheck? }

  predicate HasNode(pc: PC) { BeforePush(pc) || Spinning(pc) || Sleeping(pc) || pc.Woken? }

  ghost predicate OwnerOk(s: State) {
    && (forall idx | idx in s.owner ::
          0 < idx < |s.nodes| && s.owner[idx] < |s.threads| && OwnNode(s.threads[s.owner[idx]]) == idx)
    && (forall i | 0 <= i < |s.threads| && HasNode(s.threads[i]) ::
          OwnNode(s.threads[i]) in s.owner && s.owner[OwnNode(s.threads[i])] == i)
  }

  ghost predicate CarrierOk(s: State) {
    && (forall idx | idx in s.carrier ::
          idx in s.handed + s.noticed && s.carrier[idx] < |s.threads| && Carried(s.threads[s.carrier[idx]]) == idx)
    && (forall i | 0 <= i < |s.threads| && Carried(s.threads[i]) != 0 ::
          Carried(s.threads[i]) in s.carrier && s.carrier[Carried(s.threads[i])] == i)
  }

  /** The a-th node of the list links to the next one, the last to nothing. */
  ghost predicate LinkOk(nodes: seq<Node>, stack: seq<nat>, a: nat)
    requires a < |stack|
  {
    && 0 < stack[a] < |nodes|
    && nodes[stack[a]].next == if a + 1 < |stack| then stack[a + 1] else 0
  }

  /** The next fields spell the wait list, which has no repetitions, hence no cycle. */
  ghost predicate ListOk(nodes: seq<Node>, stack: seq<nat>) {
    && (forall a, b | 0 <= a < b < |stack| :: stack[a] != stack[b])
    && (forall a | 0 <= a < |stack| :: LinkOk(nodes, stack, a))
  }

  ghost predicate StackOk(s: State) {
    && ListOk(s.nodes, s.stack)
    && (s.head.isNode <==> s.stack != [])
    && (if s.head.isNode then s.head.data == s.stack[0] else s.head.data <= MAX_VALUE)
  }

  /** Every owned node is waiting in the list, or was popped exactly one way. */
  ghost predicate SetsOk(s: State) {
    && (forall idx | idx in s.stack :: idx in s.owner && idx !in s.handed && idx !in s.noticed)
    && (forall idx | idx in s.handed :: idx in s.owner && idx !in s.noticed)
    && (forall idx | idx in s.noticed :: idx in s.owner)
    && (s.noticed != {} ==> s.head.shutdown)
  }

  ghost predicate Posted(s: State, idx: nat) {
    idx in s.handed + s.noticed && idx !in s.carrier
  }

  /** How a node's baton, its place and its owner's position fit together. */
  ghost predicate NodeOk(s: State, idx: nat)
    requires OwnerOk(s) && idx in s.owner
  {
    var pc, node := s.threads[s.owner[idx]], s.nodes[idx];
    && (BeforePush(pc) ==>
          idx !in s.stack && idx !in s.handed && idx !in s.noticed && node.baton.INIT? && node.next < |s.nodes|)
    && (!BeforePush(pc) ==> idx in s.stack || idx in s.handed || idx in s.noticed)
    && (!BeforePush(pc) && !Posted(s, idx) ==>
          (node.baton.INIT? && Spinning(pc)) || (node.baton.WAITING? && Sleeping(pc)))
    && (Posted(s, idx) ==>
          || (node.baton.EARLY_DELIVERY? && (Spinning(pc) || pc.Woken?))
          || (node.baton.LATE_DELIVERY? && (Sleeping(pc) || pc.Woken?)))
    && (idx in s.handed ==> node.next < |s.nodes|)
    && (idx in s.noticed && idx !in s.carrier ==> node.next == SHUTDOWN_NOTICE)
  }

  ghost predicate NodesOk(s: State)
    requires OwnerOk(s)
  {
    forall idx | idx in s.owner :: NodeOk(s, idx)
  }

  predicate Waking(pc: PC, idx: nat) { pc.BatonWake? && pc.idx == idx }

  ghost predicate WakeInFlight(s: State, idx: nat) {
    exists k :: 0 <= k < |s.threads| && Waking(s.threads[k], idx)
  }

  /** Somebody asleep on a posted baton is about to be woken. */
  ghost predicate SleepersOk(s: State) {
    forall i | 0 <= i < |s.threads| && s.threads[i].WaitAsleep? ::
      var idx := s.threads[i].idx;
      0 < idx < |s.nodes| && (s.nodes[idx].baton.LATE_DELIVERY? ==> WakeInFlight(s, idx))
  }

  function Value(s: State): nat { if s.head.isNode then 0 else s.head.data }

  /** Units are conserved. */
  ghost predicate CountOk(s: State) {
    s.initial + s.posted == Value(s) + s.taken + |s.handed| + s.lost
  }

  ghost predicate ShutOk(s: State) {
    s.shutDone ==> s.head.shutdown && s.stack == []
  }

  ghost predicate Parts(s: State) {
    && 0 < |s.nodes| < SHUTDOWN_NOTICE
    && ThreadsOk(s) && OwnerOk(s) && CarrierOk(s) && StackOk(s) && SetsOk(s) && NodesOk(s)
    && SleepersOk(s) && CountOk(s) && ShutOk(s)
  }

  /** The invariant, quantified so that its parts are looked up only where Parts is mentioned. */
  ghost predicate Inv(s: State) {
    forall x: State | x == s :: Parts(x)
  }

  lemma InitInv(s: State)
    requires Init(s)
    ensures Inv(s)
  {
    assert Parts(s);
  }

  // ------------------------------------------------------------- frame facts

  /** A step that disturbs at most node x, as far as other threads can tell. */
  ghost predicate Gentle(s: State, s': State, x: nat) {
    && |s'.nodes| == |s.nodes| && |s'.threads| == |s.threads|
    && s.head.seqno <= s'.head.seqno
    && (s.head.shutdown ==> s'.head.shutdown)
    && (s'.head.seqno == s.head.seqno ==> forall y | y in s.stack :: y in s'.stack)
    && (s'.head == s.head || s'.head.seqno > s.head.seqno
        || (s'.head.isNode && s'.head.data !in s.stack)
        || (s'.head.shutdown && !s.head.shutdown))
    && (s.head.shutdown && s.stack == [] ==> s'.stack == [])
    && (forall y | 0 <= y < |s.nodes| && (y != x || y in s.stack) :: s'.nodes[y].next == s.nodes[y].next)
    && (forall y | 0 <= y < |s.nodes| && y != x :: s'.nodes[y].baton.INIT? ==> s.nodes[y].baton.INIT?)
    && (forall y | y != x :: (y in s.handed ==> y in s'.handed) && (y in s.noticed ==> y in s'.noticed))
  }

  lemma StaleKept(s: State, s': State, x: nat, h: Head)
    requires Gentle(s, s', x) && StaleOk(s, h)
    ensures StaleOk(s', h)
    ensures h.shutdown && (!h.isNode ==> s.stack == []) ==> (!h.isNode ==> s'.stack == [])
    ensures h.isNode && s'.head == h ==> s.head == h && h.data in s.stack
  {
  }

  lemma NextKept(s: State, s': State, x: nat, h: Head, next: nat)
    requires Gentle(s, s', x) && StaleOk(s, h) && NextOk(s, h, next)
    ensures NextOk(s', h, next)
  {
    StaleKept(s, s', x, h);
  }

  lemma PcKept(s: State, s': State, x: nat, pc: PC)
    requires PcOk(s, pc) && Gentle(s, s', x)
    requires x == 0 || ((OwnNode(pc) != x || !BeforePush(pc)) && Carried(pc) != x)
    ensures PcOk(s', pc)
  {
    match pc
    case PostNext(n, h) => StaleKept(s, s', x, h);
    case PostPop(n, h, next) => StaleKept(s, s', x, h); NextKept(s, s', x, h, next);
    case BatonLoad(idx, after) => AfterKept(s, s', x, after);
    case BatonCas(idx, after) => AfterKept(s, s', x, after);
    case BatonLate(idx, after) => AfterKept(s, s', x, after);
    case BatonWake(idx, after) => AfterKept(s, s', x, after);
    case ShutLoop(h) => StaleKept(s, s', x, h);
    case ShutPop(h, next) => StaleKept(s, s', x, h); NextKept(s, s', x, h, next);
    case ShutNotice(idx, h) => StaleKept(s, s', x, h);
    case _ =>
  }

  lemma AfterKept(s: State, s': State, x: nat, after: After)
    requires AfterOk(s, after) && Gentle(s, s', x)
    ensures AfterOk(s', after)
  {
    if after.MoreShutdown? {
      StaleKept(s, s', x, after.head);
    }
  }

  /** Everybody but thread i, whose node x this is, carries on undisturbed. */
  lemma ThreadsKept(s: State, s': State, x: nat, i: nat)
    requires Inv(s) && Gentle(s, s', x) && i < |s.threads|
    requires forall k | 0 <= k < |s.threads| && k != i :: s'.threads[k] == s.threads[k]
    requires PcOk(s', s'.threads[i])
    requires forall k | 0 <= k < |s.threads| && k != i && x != 0 ::
               (OwnNode(s.threads[k]) != x || !BeforePush(s.threads[k])) && Carried(s.threads[k]) != x
    ensures ThreadsOk(s')
  {
    assert Parts(s);
    forall k | 0 <= k < |s'.threads| ensures PcOk(s', s'.threads[k]) {
      if k != i {
        PcKept(s, s', x, s.threads[k]);
      }
    }
  }

  /** Wakes in flight survive the steps of other threads. */
  lemma SleepersKept(s: State, s': State, i: nat)
    requires SleepersOk(s) && i < |s.threads| == |s'.threads| && |s'.nodes| == |s.nodes|
    requires forall k | 0 <= k < |s.threads| && k != i :: s'.threads[k] == s.threads[k]
    requires !s.threads[i].BatonWake?
    requires forall k | 0 <= k < |s.threads| && k != i && s.threads[k].WaitAsleep? && s.threads[k].idx < |s.nodes| ::
               s'.nodes[s.threads[k].idx].baton.LATE_DELIVERY? && !s.nodes[s.threads[k].idx].baton.LATE_DELIVERY? ==>
                 Waking(s'.threads[i], s.threads[k].idx)
    requires s'.threads[i].WaitAsleep? ==>
               0 < s'.threads[i].idx < |s'.nodes| && !s'.nodes[s'.threads[i].idx].baton.LATE_DELIVERY?
    ensures SleepersOk(s')
  {
    forall k | 0 <= k < |s'.threads| && s'.threads[k].WaitAsleep? && s'.nodes[s'.threads[k].idx].baton.LATE_DELIVERY?
      ensures WakeInFlight(s', s'.threads[k].idx)
    {
      var idx := s.threads[k].idx;
      if s.nodes[idx].baton.LATE_DELIVERY? {
        var w :| 0 <= w < |s.threads| && Waking(s.threads[w], idx);
        assert Waking(s'.threads[w], idx);
      } else {
        assert Waking(s'.threads[i], idx);
      }
    }
  }

  // -------------------------------------------------------- each step keeps it

  /** A move of one program counter that means nothing to anybody else. */
  ghost predicate LocalMove(s: State, a: PC, b: PC) {
    && (HasNode(a) <==> HasNode(b)) && OwnNode(a) == OwnNode(b) && Carried(a) == Carried(b)
    && (BeforePush(a) <==> BeforePush(b))
    && (Spinning(a) ==> Spinning(b) || (b.Woken? && Posted(s, OwnNode(b))))
    && (Sleeping(a) ==> Sleeping(b) || (b.Woken? && Posted(s, OwnNode(b))))
    && (a.Woken? ==> b.Woken?)
    && (b.WaitAsleep? ==> b.idx < |s.nodes| && s.nodes[b.idx].baton.WAITING?)
    && !a.BatonWake?
  }

  lemma LocalStep(s: State, i: nat, pc: PC)
    requires Inv(s) && i < |s.threads| && PcOk(s, pc) && LocalMove(s, s.threads[i], pc)
    ensures Inv(Goto(s, i, pc))
  {
    assert Parts(s);
    LocalKeepsThreads(s, i, pc);
    LocalKeepsOwners(s, i, pc);
    LocalKeepsSleepers(s, i, pc);
    LocalKeepsShared(s, Goto(s, i, pc));
  }

  lemma LocalKeepsThreads(s: State, i: nat, pc: PC)
    requires Inv(s) && i < |s.threads| && PcOk(s, pc)
    ensures ThreadsOk(Goto(s, i, pc))
  {
    var s' := Goto(s, i, pc);
    assert Gentle(s, s', 0);
    assert PcOk(s', pc) by { PcKept(s, s', 0, pc); }
    ThreadsKept(s, s', 0, i);
  }

  lemma LocalKeepsShared(s: State, s': State)
    requires StackOk(s) && SetsOk(s) && CountOk(s) && ShutOk(s) && s' == s.(threads := s'.threads)
    ensures StackOk(s') && SetsOk(s') && CountOk(s') && ShutOk(s')
  {
  }

  lemma LocalKeepsOwners(s: State, i: nat, pc: PC)
    requires OwnerOk(s) && CarrierOk(s) && NodesOk(s) && i < |s.threads| && LocalMove(s, s.threads[i], pc)
    ensures OwnerOk(Goto(s, i, pc)) && CarrierOk(Goto(s, i, pc)) && NodesOk(Goto(s, i, pc))
  {
    var s' := Goto(s, i, pc);
    assert OwnerOk(s');
    forall idx | idx in s'.owner ensures NodeOk(s', idx) {
      assert NodeOk(s, idx);
      if s.owner[idx] == i {
        NoNodeNoOwn(pc);
        NodePhaseMoves(s, s', idx);
      }
    }
  }

  lemma NodePhaseMoves(s: State, s': State, idx: nat)
    requires OwnerOk(s) && OwnerOk(s') && idx in s.owner && NodeOk(s, idx)
    requires s' == s.(threads := s'.threads) && |s'.threads| == |s.threads|
    requires LocalMove(s, s.threads[s.owner[idx]], s'.threads[s.owner[idx]])
    ensures NodeOk(s', idx)
  {
  }

  lemma LocalKeepsSleepers(s: State, i: nat, pc: PC)
    requires Inv(s) && i < |s.threads| && LocalMove(s, s.threads[i], pc)
    ensures SleepersOk(Goto(s, i, pc))
  {
    assert Parts(s);
    if HasNode(pc) {
      assert OwnNode(s.threads[i]) in s.owner;
    }
    SleepersKept(s, Goto(s, i, pc), i);
  }

  /** The current head, remembered. */
  lemma HeadIsFresh(s: State)
    requires StackOk(s)
    ensures StaleOk(s, s.head) && (s.head.shutdown ==> ShutHeadOk(s, s.head))
    ensures Link(s.head) < |s.nodes| || |s.nodes| == 0
  {
    if s.stack != [] {
      assert LinkOk(s.nodes, s.stack, 0);
    }
  }

  lemma PostLoadStep(s: State, s': State, i: nat)
    requires Inv(s) && i < |s.threads| && StepPostLoad(s, s', i)
    ensures Inv(s')
  {
    assert Parts(s);
    HeadIsFresh(s);
    assert PcOk(s, s.threads[i]);
    LocalStep(s, i, s'.threads[i]);
  }

  lemma PostNextStep(s: State, s': State, i: nat)
    requires Inv(s) && i < |s.threads| && StepPostNext(s, s', i)
    ensures Inv(s')
  {
    assert Parts(s);
    assert PcOk(s, s.threads[i]);
    LocalStep(s, i, s'.threads[i]);
  }

  lemma TryLoadStep(s: State, s': State, i: nat)
    requires Inv(s) && i < |s.threads| && StepTryLoad(s, s', i)
    ensures Inv(s')
  {
    assert Parts(s);
    assert PcOk(s, s.threads[i]);
    LocalStep(s, i, s'.threads[i]);
  }

  lemma ShutLoadStep(s: State, s': State, i: nat)
    requires Inv(s) && i < |s.threads| && StepShutLoad(s, s', i)
    ensures Inv(s')
  {
    assert Parts(s);
    HeadIsFresh(s);
    LocalStep(s, i, s'.threads[i]);
  }

  predicate Carrying(pc: PC) { pc.BatonLoad? || pc.BatonCas? || pc.BatonLate? }

  lemma CargoMoves(s: State, a: PC, b: PC)
    requires PcOk(s, a) && Carrying(a) && Carrying(b) && a.idx == b.idx && a.after == b.after
    requires b.BatonLate? ==> a.idx < |s.nodes| && !s.nodes[a.idx].baton.INIT?
    ensures PcOk(s, b) && LocalMove(s, a, b)
  {
    assert CargoOk(s, a.idx, a.after);
  }

  lemma BatonLoadStep(s: State, s': State, i: nat)
    requires Inv(s) && i < |s.threads| && StepBatonLoad(s, s', i)
    ensures Inv(s')
  {
    assert Parts(s);
    var pc := s.threads[i];
    var pc' := s'.threads[i];
    CargoMoves(s, pc, pc');
    LocalStep(s, i, pc');
  }

  lemma StartStep(s: State, s': State, i: nat, n: nat)
    requires Inv(s) && i < |s.threads| && StepStart(s, s', i, n)
    ensures Inv(s')
  {
    LocalStep(s, i, s'.threads[i]);
  }

  /** A waiting thread owns the node its program counter names. */
  lemma OwnNodeOk(s: State, i: nat)
    requires Inv(s) && i < |s.threads| && HasNode(s.threads[i])
    ensures OwnerOk(s)
    ensures OwnNode(s.threads[i]) in s.owner && s.owner[OwnNode(s.threads[i])] == i
    ensures 0 < OwnNode(s.threads[i]) < |s.nodes| && NodeOk(s, OwnNode(s.threads[i]))
  {
    assert Parts(s);
  }

  lemma SpinMoves(s: State, idx: nat, pc: PC)
    requires OwnerOk(s) && idx in s.owner && NodeOk(s, idx)
    requires s.threads[s.owner[idx]] == WaitSpin(idx) || s.threads[s.owner[idx]] == WaitCas(idx)
    requires pc == if s.nodes[idx].baton.EARLY_DELIVERY? then Woken(idx) else WaitCas(idx)
    ensures LocalMove(s, s.threads[s.owner[idx]], pc) && PcOk(s, pc)
  {
  }

  lemma WaitSpinStep(s: State, s': State, i: nat)
    requires Inv(s) && i < |s.threads| && StepWaitSpin(s, s', i)
    ensures Inv(s')
  {
    assert Parts(s);
    OwnNodeOk(s, i);
    if s' != s {
      SpinMoves(s, s.threads[i].idx, s'.threads[i]);
      LocalStep(s, i, s'.threads[i]);
    }
  }

  lemma WaitSleepStep(s: State, s': State, i: nat)
    requires Inv(s) && i < |s.threads| && (StepWaitSleep(s, s', i) || StepSpurious(s, s', i))
    ensures Inv(s')
  {
    OwnNodeOk(s, i);
    LocalStep(s, i, s'.threads[i]);
  }

  lemma WaitCheckStep(s: State, s': State, i: nat)
    requires Inv(s) && i < |s.threads| && StepWaitCheck(s, s', i)
    ensures Inv(s')
  {
    OwnNodeOk(s, i);
    LocalStep(s, i, s'.threads[i]);
  }

  // ------------------------------------------------------------------ popping

  /** Thread i, which had no node in hand, has popped the top node, for a unit or for
      a shutdown notice. */
  ghost predicate Popped(s: State, s': State, i: nat) {
    && i < |s.threads| == |s'.threads| && s.stack != []
    && (forall k | 0 <= k < |s.threads| && k != i :: s'.threads[k] == s.threads[k])
    && !HasNode(s.threads[i]) && Carried(s.threads[i]) == 0 && !s.threads[i].BatonWake?
    && !HasNode(s'.threads[i]) && Carried(s'.threads[i]) == s.stack[0] && !s'.threads[i].WaitAsleep?
    && s.stack[0] < |s.nodes|
    && s' == s.(threads := s'.threads, head := s.head.WithPop(s.nodes[s.stack[0]].next), stack := s.stack[1..],
                carrier := s.carrier[s.stack[0] := i],
                handed := s'.handed, noticed := s'.noticed, posted := s'.posted)
    && (|| (s'.handed == s.handed + {s.stack[0]} && s'.noticed == s.noticed && s'.posted == s.posted + 1)
        || (s'.handed == s.handed && s'.noticed == s.noticed + {s.stack[0]} && s'.posted == s.posted && s.head.shutdown))
  }

  lemma PopStep(s: State, s': State, i: nat)
    requires Inv(s) && Popped(s, s', i) && PcOk(s', s'.threads[i])
    ensures Inv(s')
  {
    assert Parts(s);
    assert LinkOk(s.nodes, s.stack, 0) && s.stack[0] in s.stack;
    PopKeepsStack(s, s', i);
    PopKeepsCount(s, s', i);
    PopIsGentle(s, s', i);
    ThreadsKept(s, s', 0, i);
    PopKeepsSets(s, s', i);
    PopKeepsOwners(s, s', i);
    PopKeepsNodes(s, s', i);
    SleepersKept(s, s', i);
    assert Parts(s');
  }

  lemma PopIsGentle(s: State, s': State, i: nat)
    requires Popped(s, s', i)
    ensures Gentle(s, s', 0)
  {
  }

  lemma PopKeepsStack(s: State, s': State, i: nat)
    requires StackOk(s) && ShutOk(s) && Popped(s, s', i)
    ensures StackOk(s') && ShutOk(s')
  {
    assert LinkOk(s.nodes, s.stack, 0);
    forall a | 0 <= a < |s'.stack| ensures LinkOk(s'.nodes, s'.stack, a) {
      assert LinkOk(s.nodes, s.stack, a + 1);
    }
    if |s'.stack| > 0 {
      assert LinkOk(s.nodes, s.stack, 1);
    }
  }

  lemma PopKeepsCount(s: State, s': State, i: nat)
    requires StackOk(s) && CountOk(s) && Popped(s, s', i) && s.stack[0] !in s.handed
    ensures CountOk(s')
  {
  }

  lemma PopKeepsSets(s: State, s': State, i: nat)
    requires ListOk(s.nodes, s.stack) && SetsOk(s) && Popped(s, s', i)
    ensures SetsOk(s')
  {
    assert s.stack[0] in s.stack;
    forall idx | idx in s'.stack ensures idx in s.stack && idx != s.stack[0] {
      var a :| 0 <= a < |s'.stack| && s'.stack[a] == idx;
      assert s.stack[a + 1] == idx;
    }
  }

  lemma PopKeepsOwners(s: State, s': State, i: nat)
    requires OwnerOk(s) && CarrierOk(s) && SetsOk(s) && Popped(s, s', i) && s.stack[0] > 0
    ensures OwnerOk(s') && CarrierOk(s')
  {
    assert s.stack[0] in s.stack;
    forall idx | idx in s'.owner
      ensures 0 < idx < |s'.nodes| && s'.owner[idx] < |s'.threads| && OwnNode(s'.threads[s'.owner[idx]]) == idx
    {
      NoNodeNoOwn(s.threads[i]);
    }
  }

  lemma NoNodeNoOwn(pc: PC)
    ensures !HasNode(pc) ==> OwnNode(pc) == 0
  {
  }

  lemma PopKeepsNodes(s: State, s': State, i: nat)
    requires OwnerOk(s) && NodesOk(s) && SetsOk(s) && ListOk(s.nodes, s.stack) && Popped(s, s', i) && OwnerOk(s')
    ensures NodesOk(s')
  {
    assert s.stack[0] in s.stack;
    assert LinkOk(s.nodes, s.stack, 0);
    if |s.stack| > 1 {
      assert LinkOk(s.nodes, s.stack, 1);
    }
    forall idx | idx in s'.owner ensures NodeOk(s', idx) {
      assert NodeOk(s, idx);
      StackTail(s.stack, idx);
      NoNodeNoOwn(s.threads[i]);
      assert s.owner[idx] != i;
    }
  }

  lemma StackTail(stack: seq<nat>, idx: nat)
    requires stack != []
    ensures idx in stack <==> idx == stack[0] || idx in stack[1..]
  {
    assert stack == [stack[0]] + stack[1..];
  }

  lemma PostPopStep(s: State, s': State, i: nat)
    requires Inv(s) && i < |s.threads| && StepPostPop(s, s', i)
    ensures Inv(s')
  {
    assert Parts(s);
    var pc := s.threads[i];
    assert PcOk(s, pc);
    if s.head == pc.head {
      PostPopPops(s, s', i);
      PopStep(s, s', i);
    } else {
      LocalStep(s, i, PostLoad(pc.n));
    }
  }

  lemma PostPopPops(s: State, s': State, i: nat)
    requires StackOk(s) && i < |s.threads| && StepPostPop(s, s', i) && PcOk(s, s.threads[i])
    requires s.head == s.threads[i].head
    ensures Popped(s, s', i) && PcOk(s', s'.threads[i])
  {
    assert LinkOk(s.nodes, s.stack, 0);
  }

  lemma ShutPopStep(s: State, s': State, i: nat)
    requires Inv(s) && i < |s.threads| && StepShutPop(s, s', i)
    ensures Inv(s')
  {
    assert Parts(s);
    var pc := s.threads[i];
    assert PcOk(s, pc);
    HeadIsFresh(s);
    if s.head == pc.head {
      ShutPopPops(s, s', i);
      PopStep(s, s', i);
    } else {
      LocalStep(s, i, ShutLoop(s.head));
    }
  }

  lemma ShutPopPops(s: State, s': State, i: nat)
    requires StackOk(s) && ShutOk(s) && i < |s.threads| && StepShutPop(s, s', i) && PcOk(s, s.threads[i])
    requires s.head == s.threads[i].head
    ensures Popped(s, s', i) && PcOk(s', s'.threads[i])
  {
    assert LinkOk(s.nodes, s.stack, 0);
    PopKeepsStack(s, s', i);
    HeadIsFresh(s');
  }

  // ----------------------------------------------------- values and free nodes

  /** The value moves; the wait list is and stays empty. */
  ghost predicate ValueMoved(s: State, s': State, i: nat) {
    && i < |s.threads| == |s'.threads|
    && s' == s.(threads := s.threads[i := s'.threads[i]], head := s'.head,
                posted := s'.posted, taken := s'.taken, lost := s'.lost)
    && !s.head.isNode && !s'.head.isNode && s'.head.data <= MAX_VALUE
    && s'.head.seqno == s.head.seqno + 1 && s'.head.shutdown == s.head.shutdown
  }

  lemma ValueStep(s: State, s': State, i: nat)
    requires Inv(s) && ValueMoved(s, s', i)
    requires LocalMove(s, s.threads[i], s'.threads[i]) && PcOk(s', s'.threads[i]) && CountOk(s')
    ensures Inv(s')
  {
    assert Parts(s);
    ValueIsGentle(s, s', i);
    ThreadsKept(s, s', 0, i);
    ValueKeepsOwners(s, s', i);
    LocalKeepsSleepers(s, i, s'.threads[i]);
    SleepersOnlyNodes(Goto(s, i, s'.threads[i]), s');
    assert Parts(s');
  }

  lemma ValueIsGentle(s: State, s': State, i: nat)
    requires ValueMoved(s, s', i)
    ensures Gentle(s, s', 0)
  {
  }

  lemma ValueKeepsOwners(s: State, s': State, i: nat)
    requires Inv(s) && ValueMoved(s, s', i) && LocalMove(s, s.threads[i], s'.threads[i])
    ensures OwnerOk(s') && CarrierOk(s') && NodesOk(s')
  {
    assert Parts(s);
    var t := Goto(s, i, s'.threads[i]);
    LocalKeepsOwners(s, i, s'.threads[i]);
    assert OwnerOk(s');
    forall idx | idx in s'.owner ensures NodeOk(s', idx) {
      assert NodeOk(t, idx);
    }
  }

  lemma SleepersOnlyNodes(s: State, s': State)
    requires SleepersOk(s) && s'.threads == s.threads && s'.nodes == s.nodes
    ensures SleepersOk(s')
  {
    forall i | 0 <= i < |s'.threads| && s'.threads[i].WaitAsleep? && s'.nodes[s'.threads[i].idx].baton.LATE_DELIVERY?
      ensures WakeInFlight(s', s'.threads[i].idx)
    {
      var k :| 0 <= k < |s.threads| && Waking(s.threads[k], s.threads[i].idx);
      assert Waking(s'.threads[k], s.threads[i].idx);
    }
  }

  lemma PostIncrStep(s: State, s': State, i: nat)
    requires Inv(s) && i < |s.threads| && StepPostIncr(s, s', i)
    ensures Inv(s')
  {
    assert Parts(s);
    var pc := s.threads[i];
    assert PcOk(s, pc);
    if s.head == pc.head {
      ValueStep(s, s', i);
    } else {
      LocalStep(s, i, PostLoad(pc.n));
    }
  }

  lemma TryCasStep(s: State, s': State, i: nat)
    requires Inv(s) && i < |s.threads| && StepTryCas(s, s', i)
    ensures Inv(s')
  {
    assert Parts(s);
    var pc := s.threads[i];
    assert PcOk(s, pc);
    if s.head == pc.head {
      ValueStep(s, s', i);
    } else {
      LocalStep(s, i, TryLoad(pc.n, pc.blocking));
    }
  }

  /** A waiter that never pushed gives its node back. */
  lemma FreeStep(s: State, i: nat)
    requires Inv(s) && i < |s.threads| && BeforePush(s.threads[i])
    ensures Inv(Goto(s.(owner := s.owner - {OwnNode(s.threads[i])}), i, Idle))
  {
    assert Parts(s);
    var idx := OwnNode(s.threads[i]);
    var s' := Goto(s.(owner := s.owner - {idx}), i, Idle);
    OwnNodeOk(s, i);
    FreeIsGentle(s, s');
    ThreadsKept(s, s', 0, i);
    FreeKeepsOwners(s, i);
    SleepersKept(s, s', i);
    assert Parts(s');
  }

  lemma FreeIsGentle(s: State, s': State)
    requires s' == s.(owner := s'.owner, threads := s'.threads) && |s'.threads| == |s.threads|
    ensures Gentle(s, s', 0)
  {
  }

  lemma FreeKeepsOwners(s: State, i: nat)
    requires OwnerOk(s) && CarrierOk(s) && SetsOk(s) && NodesOk(s)
    requires i < |s.threads| && BeforePush(s.threads[i])
    ensures var s' := Goto(s.(owner := s.owner - {OwnNode(s.threads[i])}), i, Idle);
            OwnerOk(s') && CarrierOk(s') && SetsOk(s') && NodesOk(s')
  {
    var idx := OwnNode(s.threads[i]);
    var s' := Goto(s.(owner := s.owner - {idx}), i, Idle);
    assert NodeOk(s, idx);
    assert SetsOk(s');
    FreeKeepsOwnership(s, i);
    forall x | x in s'.owner ensures NodeOk(s', x) {
      assert NodeOk(s, x);
      NodeUntouched(s, s', x);
    }
  }

  lemma FreeKeepsOwnership(s: State, i: nat)
    requires OwnerOk(s) && CarrierOk(s) && i < |s.threads| && HasNode(s.threads[i])
    ensures var s' := Goto(s.(owner := s.owner - {OwnNode(s.threads[i])}), i, Idle);
            OwnerOk(s') && CarrierOk(s') && forall x | x in s'.owner :: s.owner[x] != i
  {
    var idx := OwnNode(s.threads[i]);
    var s' := Goto(s.(owner := s.owner - {idx}), i, Idle);
    forall x | x in s'.owner ensures x in s.owner && s.owner[x] != i && OwnNode(s.threads[s.owner[x]]) == x {}
    forall k | 0 <= k < |s'.threads| && HasNode(s'.threads[k])
      ensures OwnNode(s'.threads[k]) in s'.owner && s'.owner[OwnNode(s'.threads[k])] == k
    {
      assert OwnNode(s.threads[k]) in s.owner && s.owner[OwnNode(s.threads[k])] == k;
    }
  }

  /** Nothing a node's owner relies on has changed. */
  lemma NodeUntouched(s: State, s': State, idx: nat)
    requires OwnerOk(s) && OwnerOk(s') && idx in s.owner && idx in s'.owner && NodeOk(s, idx)
    requires s'.threads[s'.owner[idx]] == s.threads[s.owner[idx]] && |s'.nodes| == |s.nodes|
    requires s'.nodes[idx] == s.nodes[idx] && (idx in s'.carrier <==> idx in s.carrier)
    requires (idx in s'.stack <==> idx in s.stack) && (idx in s'.handed <==> idx in s.handed)
             && (idx in s'.noticed <==> idx in s.noticed)
    ensures NodeOk(s', idx)
  {
  }

  lemma PushDecrStep(s: State, s': State, i: nat)
    requires Inv(s) && i < |s.threads| && StepPushDecr(s, s', i)
    ensures Inv(s')
  {
    assert Parts(s);
    var pc := s.threads[i];
    assert PcOk(s, pc);
    if s.head == pc.head {
      PushDecrValue(s, i);
      FreeStep(s.(head := pc.head.WithValueDecr(1), taken := s.taken + 1), i);
    } else {
      LocalStep(s, i, PushLoad(pc.idx));
    }
  }

  lemma PushDecrValue(s: State, i: nat)
    requires Inv(s) && i < |s.threads| && s.threads[i].PushDecr? && s.head == s.threads[i].head && s.head.data > 0
    ensures Inv(s.(head := s.head.WithValueDecr(1), taken := s.taken + 1))
  {
    assert Parts(s);
    var mid := s.(head := s.head.WithValueDecr(1), taken := s.taken + 1);
    assert PcOk(s, s.threads[i]);
    PushDecrMoves(s, mid, i);
    ValueStep(s, mid, i);
  }

  lemma PushDecrMoves(s: State, mid: State, i: nat)
    requires StackOk(s) && CountOk(s) && i < |s.threads| && s.threads[i].PushDecr? && s.head == s.threads[i].head
    requires s.head.data > 0 && PcOk(s, s.threads[i]) && mid == s.(head := s.head.WithValueDecr(1), taken := s.taken + 1)
    ensures ValueMoved(s, mid, i) && CountOk(mid) && LocalMove(s, s.threads[i], mid.threads[i]) && PcOk(mid, mid.threads[i])
  {
    assert mid.threads == s.threads[i := s.threads[i]];
  }

  lemma PushLoadStep(s: State, s': State, i: nat)
    requires Inv(s) && i < |s.threads| && StepPushLoad(s, s', i)
    ensures Inv(s')
  {
    assert Parts(s);
    var pc := s.threads[i];
    HeadIsFresh(s);
    if !s.head.isNode && s.head.data > 0 {
      LocalStep(s, i, PushDecr(pc.idx, s.head));
    } else if s.head.shutdown {
      FreeStep(s, i);
    } else {
      LocalStep(s, i, PushNext(pc.idx, s.head));
    }
  }

  // -------------------------------------------------------- allocate and push

  lemma AllocStep(s: State, s': State, i: nat, idx: nat)
    requires Inv(s) && i < |s.threads| && StepAlloc(s, s', i, idx)
    ensures Inv(s')
  {
    assert Parts(s);
    AllocIsGentle(s, s', i, idx);
    ThreadsKept(s, s', idx, i);
    AllocKeepsOwners(s, s', i, idx);
    AllocKeepsList(s, s', i, idx);
    SleepersKept(s, s', i);
    assert Parts(s');
  }

  lemma AllocIsGentle(s: State, s': State, i: nat, idx: nat)
    requires OwnerOk(s) && CarrierOk(s) && SetsOk(s) && i < |s.threads| && StepAlloc(s, s', i, idx)
    ensures Gentle(s, s', idx)
    ensures forall k | 0 <= k < |s.threads| ::
              (OwnNode(s.threads[k]) != idx || !BeforePush(s.threads[k])) && Carried(s.threads[k]) != idx
  {
    forall k | 0 <= k < |s.threads|
      ensures (OwnNode(s.threads[k]) != idx || !BeforePush(s.threads[k])) && Carried(s.threads[k]) != idx
    {
      if Carried(s.threads[k]) != 0 {
        assert Carried(s.threads[k]) in s.carrier;
      }
    }
  }

  lemma AllocKeepsOwners(s: State, s': State, i: nat, idx: nat)
    requires OwnerOk(s) && CarrierOk(s) && SetsOk(s) && NodesOk(s) && i < |s.threads| && StepAlloc(s, s', i, idx)
    ensures OwnerOk(s') && CarrierOk(s') && SetsOk(s') && NodesOk(s')
  {
    AllocKeepsOwnership(s, s', i, idx);
    forall x | x in s'.owner ensures NodeOk(s', x) {
      if x != idx {
        assert NodeOk(s, x);
        NodeUntouched(s, s', x);
      }
    }
  }

  lemma AllocKeepsOwnership(s: State, s': State, i: nat, idx: nat)
    requires OwnerOk(s) && CarrierOk(s) && i < |s.threads| && StepAlloc(s, s', i, idx)
    ensures OwnerOk(s') && CarrierOk(s') && forall x | x in s.owner :: s.owner[x] != i
  {
    forall x | x in s.owner ensures s.owner[x] != i {
      assert OwnNode(s.threads[s.owner[x]]) == x;
    }
    forall k | 0 <= k < |s'.threads| && HasNode(s'.threads[k])
      ensures OwnNode(s'.threads[k]) in s'.owner && s'.owner[OwnNode(s'.threads[k])] == k
    {
      if k != i {
        assert OwnNode(s.threads[k]) in s.owner && s.owner[OwnNode(s.threads[k])] == k;
      }
    }
  }

  lemma AllocKeepsList(s: State, s': State, i: nat, idx: nat)
    requires StackOk(s) && SetsOk(s) && CountOk(s) && ShutOk(s) && i < |s.threads| && StepAlloc(s, s', i, idx)
    ensures StackOk(s') && CountOk(s') && ShutOk(s')
  {
    forall a | 0 <= a < |s'.stack| ensures LinkOk(s'.nodes, s'.stack, a) {
      assert LinkOk(s.nodes, s.stack, a);
      assert s.stack[a] in s.stack;
    }
  }

  /** A waiter not in the list writes its own next field. */
  lemma PushNextStep(s: State, s': State, i: nat)
    requires Inv(s) && i < |s.threads| && StepPushNext(s, s', i)
    ensures Inv(s')
  {
    assert Parts(s);
    var pc := s.threads[i];
    var idx := pc.idx;
    OwnNodeOk(s, i);
    assert PcOk(s, pc);
    WriteKeepsThreads(s, s', i);
    WriteKeepsOwners(s, s', i);
    WriteKeepsList(s, s', i);
    assert Parts(s');
  }

  lemma WriteKeepsThreads(s: State, s': State, i: nat)
    requires Inv(s) && i < |s.threads| && StepPushNext(s, s', i)
    ensures ThreadsOk(s') && SleepersOk(s')
  {
    assert Parts(s);
    OwnNodeOk(s, i);
    assert PcOk(s, s.threads[i]);
    WriteIsGentle(s, s', i);
    ThreadsKept(s, s', s.threads[i].idx, i);
    SleepersKept(s, s', i);
  }

  lemma WriteIsGentle(s: State, s': State, i: nat)
    requires OwnerOk(s) && CarrierOk(s) && SetsOk(s) && NodesOk(s) && i < |s.threads| && StepPushNext(s, s', i)
    ensures Gentle(s, s', s.threads[i].idx)
    ensures forall k | 0 <= k < |s.threads| && k != i ::
              (OwnNode(s.threads[k]) != s.threads[i].idx || !BeforePush(s.threads[k]))
              && Carried(s.threads[k]) != s.threads[i].idx
  {
    var idx := s.threads[i].idx;
    assert HasNode(s.threads[i]) && OwnNode(s.threads[i]) == idx;
    assert idx in s.owner && NodeOk(s, idx);
    forall k | 0 <= k < |s.threads| && k != i
      ensures (OwnNode(s.threads[k]) != idx || !BeforePush(s.threads[k])) && Carried(s.threads[k]) != idx
    {
      if Carried(s.threads[k]) != 0 {
        assert Carried(s.threads[k]) in s.carrier;
      }
    }
  }

  lemma WriteKeepsOwners(s: State, s': State, i: nat)
    requires OwnerOk(s) && CarrierOk(s) && SetsOk(s) && NodesOk(s) && i < |s.threads| && StepPushNext(s, s', i)
    requires Link(s.threads[i].head) < |s.nodes|
    ensures OwnerOk(s') && CarrierOk(s') && SetsOk(s') && NodesOk(s')
  {
    var idx := s.threads[i].idx;
    assert HasNode(s.threads[i]) && OwnNode(s.threads[i]) == idx;
    assert OwnerOk(s');
    forall x | x in s'.owner ensures NodeOk(s', x) {
      assert NodeOk(s, x);
      if x != idx {
        assert s.owner[x] != i;
        NodeUntouched(s, s', x);
      }
    }
  }

  lemma WriteKeepsList(s: State, s': State, i: nat)
    requires OwnerOk(s) && NodesOk(s) && StackOk(s) && CountOk(s) && ShutOk(s)
    requires i < |s.threads| && StepPushNext(s, s', i)
    ensures StackOk(s') && CountOk(s') && ShutOk(s')
  {
    var idx := s.threads[i].idx;
    assert HasNode(s.threads[i]) && OwnNode(s.threads[i]) == idx && NodeOk(s, idx);
    forall a | 0 <= a < |s'.stack| ensures LinkOk(s'.nodes, s'.stack, a) {
      assert LinkOk(s.nodes, s.stack, a);
      assert s.stack[a] in s.stack;
    }
  }

  lemma PushCasStep(s: State, s': State, i: nat)
    requires Inv(s) && i < |s.threads| && StepPushCas(s, s', i)
    ensures Inv(s')
  {
    assert Parts(s);
    var pc := s.threads[i];
    OwnNodeOk(s, i);
    assert PcOk(s, pc);
    if s.head == pc.head {
      PushStep(s, s', i);
    } else {
      LocalStep(s, i, PushLoad(pc.idx));
    }
  }

  lemma PushStep(s: State, s': State, i: nat)
    requires Inv(s) && Pushed(s, s', i)
    ensures Inv(s')
  {
    assert Parts(s);
    PushIsGentle(s, s', i);
    ThreadsKept(s, s', 0, i);
    PushKeepsList(s, s', i);
    PushKeepsOwners(s, s', i);
    SleepersKept(s, s', i);
    assert Parts(s');
  }

  /** The compare-and-swap that publishes a wait node. */
  ghost predicate Pushed(s: State, s': State, i: nat) {
    && i < |s.threads| && StepPushCas(s, s', i) && s.head == s.threads[i].head
    && OwnerOk(s) && s.threads[i].idx in s.owner && s.owner[s.threads[i].idx] == i && NodeOk(s, s.threads[i].idx)
    && PcOk(s, s.threads[i])
  }

  lemma PushIsGentle(s: State, s': State, i: nat)
    requires Pushed(s, s', i)
    ensures Gentle(s, s', 0)
  {
    forall y | y in s.stack ensures y in s'.stack {
      var a :| 0 <= a < |s.stack| && s.stack[a] == y;
      assert s'.stack[a + 1] == y;
    }
  }

  lemma PushKeepsList(s: State, s': State, i: nat)
    requires Pushed(s, s', i) && StackOk(s) && CountOk(s) && ShutOk(s)
    ensures StackOk(s') && CountOk(s') && ShutOk(s')
  {
    forall a | 0 <= a < |s'.stack| ensures LinkOk(s'.nodes, s'.stack, a) {
      if a > 0 {
        assert LinkOk(s.nodes, s.stack, a - 1);
      }
    }
  }

  lemma PushKeepsOwners(s: State, s': State, i: nat)
    requires Pushed(s, s', i) && CarrierOk(s) && SetsOk(s) && NodesOk(s)
    ensures OwnerOk(s') && CarrierOk(s') && SetsOk(s') && NodesOk(s')
  {
    var idx := s.threads[i].idx;
    forall y ensures y in s'.stack <==> y == idx || y in s.stack {
      StackTail(s'.stack, y);
      assert s'.stack[1..] == s.stack;
    }
    PushKeepsOwnership(s, s', i);
    forall x | x in s'.owner ensures NodeOk(s', x) {
      assert NodeOk(s, x);
      if x != idx {
        assert s.owner[x] != i;
        NodeUntouched(s, s', x);
      }
    }
  }

  lemma PushKeepsOwnership(s: State, s': State, i: nat)
    requires Pushed(s, s', i) && CarrierOk(s)
    ensures OwnerOk(s') && CarrierOk(s')
  {
  }

  // ------------------------------------------------------------------ batons

  /** A step that writes one baton and moves thread i, nothing else but the carrier map. */
  ghost predicate BatonWritten(s: State, s': State, i: nat, idx: nat) {
    && i < |s.threads| == |s'.threads| && idx < |s.nodes| == |s'.nodes|
    && s' == s.(threads := s.threads[i := s'.threads[i]],
                nodes := s.nodes[idx := s.nodes[idx].(baton := s'.nodes[idx].baton)], carrier := s'.carrier)
    && !s'.nodes[idx].baton.INIT?
  }

  lemma BatonIsGentle(s: State, s': State, i: nat, idx: nat)
    requires BatonWritten(s, s', i, idx)
    ensures Gentle(s, s', 0)
  {
  }

  lemma BatonKeepsList(s: State, s': State, i: nat, idx: nat)
    requires BatonWritten(s, s', i, idx)
    requires StackOk(s) && SetsOk(s) && CountOk(s) && ShutOk(s)
    ensures StackOk(s') && SetsOk(s') && CountOk(s') && ShutOk(s')
  {
    forall a | 0 <= a < |s'.stack| ensures LinkOk(s'.nodes, s'.stack, a) {
      assert LinkOk(s.nodes, s.stack, a);
    }
  }

  /** The waiter announces that it is going to sleep. */
  lemma WaitCasStep(s: State, s': State, i: nat)
    requires Inv(s) && i < |s.threads| && StepWaitCas(s, s', i)
    ensures Inv(s')
  {
    assert Parts(s);
    OwnNodeOk(s, i);
    var idx := s.threads[i].idx;
    if s.nodes[idx].baton.INIT? {
      WaitCasSucceeds(s, s', i, idx);
    } else {
      SpinMovesOn(s, idx);
      LocalStep(s, i, Woken(idx));
    }
  }

  lemma WaitCasSucceeds(s: State, s': State, i: nat, idx: nat)
    requires Inv(s) && i < |s.threads| && StepWaitCas(s, s', i) && s.threads[i].idx == idx && s.nodes[idx].baton.INIT?
    requires OwnerOk(s) && 0 < idx && idx in s.owner && s.owner[idx] == i && NodeOk(s, idx)
    ensures Inv(s')
  {
    assert Parts(s);
    BatonIsGentle(s, s', i, idx);
    ThreadsKept(s, s', 0, i);
    BatonKeepsList(s, s', i, idx);
    WaitCasKeepsOwners(s, s', i);
    SleepersKept(s, s', i);
    assert Parts(s');
  }

  lemma SpinMovesOn(s: State, idx: nat)
    requires OwnerOk(s) && idx in s.owner && NodeOk(s, idx)
    requires s.threads[s.owner[idx]] == WaitCas(idx) && !s.nodes[idx].baton.INIT?
    ensures LocalMove(s, s.threads[s.owner[idx]], Woken(idx))
  {
  }

  lemma WaitCasKeepsOwners(s: State, s': State, i: nat)
    requires OwnerOk(s) && CarrierOk(s) && NodesOk(s) && i < |s.threads| && StepWaitCas(s, s', i)
    requires s.nodes[s.threads[i].idx].baton.INIT?
    ensures OwnerOk(s') && CarrierOk(s') && NodesOk(s')
  {
    var idx := s.threads[i].idx;
    assert HasNode(s.threads[i]) && OwnNode(s.threads[i]) == idx && NodeOk(s, idx);
    forall k | 0 <= k < |s.threads|
      ensures HasNode(s'.threads[k]) == HasNode(s.threads[k])
      ensures OwnNode(s'.threads[k]) == OwnNode(s.threads[k]) && Carried(s'.threads[k]) == Carried(s.threads[k])
    {}
    assert OwnerOk(s');
    forall x | x in s'.owner ensures NodeOk(s', x) {
      assert NodeOk(s, x);
      if x != idx {
        assert s.owner[x] != i;
        NodeUntouched(s, s', x);
      }
    }
  }

  /** Passing the baton: the carried node is posted and no longer carried. */
  ghost predicate BatonPassed(s: State, s': State, i: nat) {
    && i < |s.threads| == |s'.threads| && Carrying(s.threads[i])
    && var pc := s.threads[i];
       && 0 < pc.idx < |s.nodes| && |s'.nodes| == |s.nodes|
       && BatonWritten(s, s', i, pc.idx) && s'.carrier == s.carrier - {pc.idx}
       && s'.nodes[pc.idx].baton == (if s.nodes[pc.idx].baton.INIT? then EARLY_DELIVERY else LATE_DELIVERY)
       && !HasNode(s'.threads[i]) && Carried(s'.threads[i]) == 0
       && (s'.nodes[pc.idx].baton.LATE_DELIVERY? ==> Waking(s'.threads[i], pc.idx))
  }

  lemma PassStep(s: State, s': State, i: nat)
    requires Inv(s) && BatonPassed(s, s', i) && PcOk(s', s'.threads[i])
    ensures Inv(s')
  {
    assert Parts(s);
    var idx := s.threads[i].idx;
    assert PcOk(s, s.threads[i]);
    PassKeepsThreads(s, s', i);
    BatonKeepsList(s, s', i, idx);
    PassKeepsOwners(s, s', i);
  }

  lemma PassKeepsThreads(s: State, s': State, i: nat)
    requires Inv(s) && BatonPassed(s, s', i) && PcOk(s', s'.threads[i])
    ensures ThreadsOk(s') && SleepersOk(s')
  {
    assert Parts(s);
    BatonIsGentle(s, s', i, s.threads[i].idx);
    ThreadsKept(s, s', 0, i);
    SleepersKept(s, s', i);
  }

  lemma PassKeepsOwners(s: State, s': State, i: nat)
    requires OwnerOk(s) && CarrierOk(s) && SetsOk(s) && NodesOk(s) && BatonPassed(s, s', i) && PcOk(s, s.threads[i])
    ensures OwnerOk(s') && CarrierOk(s') && NodesOk(s')
  {
    var idx := s.threads[i].idx;
    PassKeepsOwnership(s, s', i);
    forall x | x in s'.owner ensures NodeOk(s', x) {
      assert NodeOk(s, x);
      assert s.owner[x] != i;
      if x != idx {
        NodeUntouched(s, s', x);
      } else {
        NodePassed(s, s', i);
      }
    }
  }

  lemma PassKeepsOwnership(s: State, s': State, i: nat)
    requires OwnerOk(s) && CarrierOk(s) && BatonPassed(s, s', i)
    ensures OwnerOk(s') && CarrierOk(s') && s.threads[i].idx in s.carrier
    ensures forall x | x in s.owner :: s.owner[x] != i
  {
    assert Carried(s.threads[i]) == s.threads[i].idx && s.threads[i].idx in s.carrier;
    NoNodeNoOwn(s.threads[i]);
  }

  lemma NodePassed(s: State, s': State, i: nat)
    requires OwnerOk(s) && OwnerOk(s') && SetsOk(s) && BatonPassed(s, s', i) && PcOk(s, s.threads[i])
    requires s.threads[i].idx in s.owner && s.owner[s.threads[i].idx] != i && s.threads[i].idx in s.carrier
    requires NodeOk(s, s.threads[i].idx)
    ensures NodeOk(s', s.threads[i].idx)
  {
    assert CargoOk(s, s.threads[i].idx, s.threads[i].after);
  }

  lemma BatonCasStep(s: State, s': State, i: nat)
    requires Inv(s) && i < |s.threads| && StepBatonCas(s, s', i)
    ensures Inv(s')
  {
    assert Parts(s);
    var pc := s.threads[i];
    assert PcOk(s, pc);
    if s.nodes[pc.idx].baton.INIT? {
      ContinueOk(s, s', i);
      PassStep(s, s', i);
    } else {
      CargoMoves(s, pc, BatonLate(pc.idx, pc.after));
      LocalStep(s, i, BatonLate(pc.idx, pc.after));
    }
  }

  lemma ContinueOk(s: State, s': State, i: nat)
    requires i < |s.threads| && StepBatonCas(s, s', i) && PcOk(s, s.threads[i])
    requires s.nodes[s.threads[i].idx].baton.INIT?
    ensures BatonPassed(s, s', i) && PcOk(s', s'.threads[i])
  {
    var pc := s.threads[i];
    BatonIsGentle(s, s', i, pc.idx);
    AfterKept(s, s', 0, pc.after);
  }

  lemma BatonLateStep(s: State, s': State, i: nat)
    requires Inv(s) && i < |s.threads| && StepBatonLate(s, s', i)
    ensures Inv(s')
  {
    assert Parts(s);
    assert PcOk(s, s.threads[i]);
    LateOk(s, s', i);
    PassStep(s, s', i);
  }

  lemma LateOk(s: State, s': State, i: nat)
    requires i < |s.threads| && StepBatonLate(s, s', i) && PcOk(s, s.threads[i])
    ensures BatonPassed(s, s', i) && PcOk(s', s'.threads[i])
  {
    var pc := s.threads[i];
    BatonIsGentle(s, s', i, pc.idx);
    AfterKept(s, s', 0, pc.after);
  }

  /** futexWake: the node's only possible sleeper runs again. */
  lemma BatonWakeStep(s: State, s': State, i: nat)
    requires Inv(s) && i < |s.threads| && StepBatonWake(s, s', i)
    ensures Inv(s')
  {
    var idx, after := s.threads[i].idx, s.threads[i].after;
    if k :| 0 <= k < |s.threads| && s.threads[k] == WaitAsleep(idx)
            && s' == s.(threads := s.threads[i := Continue(after)][k := WaitCheck(idx)]) {
      WakeOne(s, i, k);
      SwapUpdates(s.threads, i, Continue(after), k, WaitCheck(idx));
    } else {
      WakeDone(s, i);
    }
  }

  lemma SwapUpdates(threads: seq<PC>, i: nat, a: PC, k: nat, b: PC)
    requires i < |threads| && k < |threads| && i != k
    ensures threads[i := a][k := b] == threads[k := b][i := a]
  {
  }

  lemma WakeOne(s: State, i: nat, k: nat)
    requires Inv(s) && i < |s.threads| && k < |s.threads| && s.threads[i].BatonWake?
    requires s.threads[k] == WaitAsleep(s.threads[i].idx)
    ensures Inv(Goto(Goto(s, k, WaitCheck(s.threads[i].idx)), i, Continue(s.threads[i].after)))
  {
    SleeperRuns(s, k);
    WakeDone(Goto(s, k, WaitCheck(s.threads[i].idx)), i);
  }

  lemma SleeperRuns(s: State, k: nat)
    requires Inv(s) && k < |s.threads| && s.threads[k].WaitAsleep?
    ensures Inv(Goto(s, k, WaitCheck(s.threads[k].idx)))
    ensures forall m | 0 <= m < |s.threads| :: Goto(s, k, WaitCheck(s.threads[k].idx)).threads[m] != s.threads[k]
  {
    SleeperAlone(s, k);
    SleeperChecks(s, k, s.threads[k].idx);
  }

  lemma SleeperAlone(s: State, k: nat)
    requires Inv(s) && k < |s.threads| && s.threads[k].WaitAsleep?
    ensures forall m | 0 <= m < |s.threads| && m != k :: s.threads[m] != s.threads[k]
  {
    assert Parts(s);
    OnlySleeper(s, k);
  }

  lemma SleeperChecks(s: State, k: nat, idx: nat)
    requires Inv(s) && k < |s.threads| && s.threads[k] == WaitAsleep(idx)
    ensures Inv(Goto(s, k, WaitCheck(idx)))
  {
    assert Parts(s);
    OwnNodeOk(s, k);
    LocalStep(s, k, WaitCheck(idx));
  }

  lemma OnlySleeper(s: State, k: nat)
    requires OwnerOk(s) && k < |s.threads| && s.threads[k].WaitAsleep?
    ensures forall m | 0 <= m < |s.threads| && m != k :: s.threads[m] != s.threads[k]
  {
    var idx := s.threads[k].idx;
    assert HasNode(s.threads[k]) && OwnNode(s.threads[k]) == idx && s.owner[idx] == k;
    forall m | 0 <= m < |s.threads| && m != k ensures s.threads[m] != WaitAsleep(idx) {
      if s.threads[m].WaitAsleep? {
        assert HasNode(s.threads[m]) && s.owner[OwnNode(s.threads[m])] == m;
      }
    }
  }

  lemma WakeDone(s: State, i: nat)
    requires Inv(s) && i < |s.threads| && s.threads[i].BatonWake?
    requires forall k | 0 <= k < |s.threads| :: s.threads[k] != WaitAsleep(s.threads[i].idx)
    ensures Inv(Goto(s, i, Continue(s.threads[i].after)))
  {
    assert Parts(s);
    var pc' := Continue(s.threads[i].after);
    var s' := Goto(s, i, pc');
    assert PcOk(s, s.threads[i]);
    LocalKeepsThreads(s, i, pc');
    WakeKeepsOwners(s, i);
    LocalKeepsShared(s, s');
    WakeKeepsSleepers(s, i);
  }

  lemma WakeKeepsOwners(s: State, i: nat)
    requires OwnerOk(s) && CarrierOk(s) && NodesOk(s) && i < |s.threads| && s.threads[i].BatonWake?
    ensures var s' := Goto(s, i, Continue(s.threads[i].after)); OwnerOk(s') && CarrierOk(s') && NodesOk(s')
  {
    var s' := Goto(s, i, Continue(s.threads[i].after));
    assert OwnerOk(s');
    forall x | x in s'.owner ensures NodeOk(s', x) {
      assert NodeOk(s, x);
      assert s.owner[x] != i;
      NodeUntouched(s, s', x);
    }
  }

  lemma WakeKeepsSleepers(s: State, i: nat)
    requires SleepersOk(s) && i < |s.threads| && s.threads[i].BatonWake?
    requires forall k | 0 <= k < |s.threads| :: s.threads[k] != WaitAsleep(s.threads[i].idx)
    ensures SleepersOk(Goto(s, i, Continue(s.threads[i].after)))
  {
    var s' := Goto(s, i, Continue(s.threads[i].after));
    forall k | 0 <= k < |s'.threads| && s'.threads[k].WaitAsleep? && s'.nodes[s'.threads[k].idx].baton.LATE_DELIVERY?
      ensures WakeInFlight(s', s'.threads[k].idx)
    {
      var w :| 0 <= w < |s.threads| && Waking(s.threads[w], s.threads[k].idx);
      assert Waking(s'.threads[w], s.threads[k].idx);
    }
  }

  /** A woken waiter returns with its unit, or throws without one. */
  lemma WokenStep(s: State, s': State, i: nat)
    requires Inv(s) && i < |s.threads| && StepWoken(s, s', i)
    ensures Inv(s')
  {
    assert Parts(s);
    OwnNodeOk(s, i);
    WokenIsGentle(s, s', i);
    ThreadsKept(s, s', s.threads[i].idx, i);
    WokenKeepsOwners(s, s', i);
    WokenKeepsList(s, s', i);
    SleepersKept(s, s', i);
    assert Parts(s');
  }

  lemma WokenIsGentle(s: State, s': State, i: nat)
    requires OwnerOk(s) && CarrierOk(s) && SetsOk(s) && NodesOk(s) && i < |s.threads| && StepWoken(s, s', i)
    ensures Gentle(s, s', s.threads[i].idx)
    ensures forall k | 0 <= k < |s.threads| && k != i ::
              (OwnNode(s.threads[k]) != s.threads[i].idx || !BeforePush(s.threads[k]))
              && Carried(s.threads[k]) != s.threads[i].idx
  {
    var idx := s.threads[i].idx;
    assert HasNode(s.threads[i]) && OwnNode(s.threads[i]) == idx;
    assert idx in s.owner && NodeOk(s, idx);
    forall k | 0 <= k < |s.threads| && k != i
      ensures (OwnNode(s.threads[k]) != idx || !BeforePush(s.threads[k])) && Carried(s.threads[k]) != idx
    {
      if Carried(s.threads[k]) != 0 {
        assert Carried(s.threads[k]) in s.carrier;
      }
    }
  }

  lemma WokenKeepsOwners(s: State, s': State, i: nat)
    requires OwnerOk(s) && CarrierOk(s) && SetsOk(s) && NodesOk(s) && i < |s.threads| && StepWoken(s, s', i)
    ensures OwnerOk(s') && CarrierOk(s') && SetsOk(s') && NodesOk(s')
  {
    var idx := s.threads[i].idx;
    assert HasNode(s.threads[i]) && OwnNode(s.threads[i]) == idx;
    assert idx in s.owner && NodeOk(s, idx);
    WokenKeepsOwnership(s, s', i);
    forall x | x in s'.owner ensures NodeOk(s', x) {
      assert NodeOk(s, x);
      NodeUntouched(s, s', x);
    }
  }

  lemma WokenKeepsOwnership(s: State, s': State, i: nat)
    requires OwnerOk(s) && CarrierOk(s) && i < |s.threads| && StepWoken(s, s', i)
    requires s.threads[i].idx in s.owner && NodeOk(s, s.threads[i].idx)
    ensures OwnerOk(s') && CarrierOk(s')
  {
    FreeKeepsOwnership(s, i);
    assert s.threads[i].idx !in s.carrier;
  }

  lemma WokenKeepsList(s: State, s': State, i: nat)
    requires OwnerOk(s) && SetsOk(s) && NodesOk(s) && StackOk(s) && CountOk(s) && ShutOk(s)
    requires i < |s.threads| && StepWoken(s, s', i) && |s.nodes| < SHUTDOWN_NOTICE
    ensures StackOk(s') && CountOk(s') && ShutOk(s')
  {
    var idx := s.threads[i].idx;
    assert HasNode(s.threads[i]) && OwnNode(s.threads[i]) == idx;
    assert idx in s.owner && NodeOk(s, idx);
  }

  // ---------------------------------------------------------------- shutdown

  lemma ShutCasStep(s: State, s': State, i: nat)
    requires Inv(s) && i < |s.threads| && StepShutCas(s, s', i)
    ensures Inv(s')
  {
    assert Parts(s);
    assert PcOk(s, s.threads[i]);
    HeadIsFresh(s);
    if s.head == s.threads[i].head {
      ShutCasSucceeds(s, s', i);
    } else {
      ShutCasFails(s, i);
    }
  }

  lemma ShutCasFails(s: State, i: nat)
    requires Inv(s) && i < |s.threads| && s.threads[i].ShutCas? && (s.head.shutdown ==> ShutHeadOk(s, s.head))
    ensures Inv(Goto(s, i, if s.head.shutdown then ShutLoop(s.head) else ShutCas(s.head)))
  {
    var pc' := if s.head.shutdown then ShutLoop(s.head) else ShutCas(s.head);
    assert LocalMove(s, s.threads[i], pc');
    LocalStep(s, i, pc');
  }

  lemma ShutCasSucceeds(s: State, s': State, i: nat)
    requires Inv(s) && i < |s.threads| && StepShutCas(s, s', i)
    requires s.head == s.threads[i].head && !s.head.shutdown && StaleOk(s, s.head)
    ensures Inv(s')
  {
    assert Parts(s);
    ShutIsGentle(s, s', i);
    ShutKeepsThreads(s, s', i);
    ShutKeepsOwners(s, s', i);
  }

  lemma ShutKeepsThreads(s: State, s': State, i: nat)
    requires Inv(s) && i < |s.threads| && StepShutCas(s, s', i) && s.head == s.threads[i].head
    requires Gentle(s, s', 0) && PcOk(s', s'.threads[i])
    ensures ThreadsOk(s') && SleepersOk(s')
  {
    assert Parts(s);
    ThreadsKept(s, s', 0, i);
    SleepersKept(s, s', i);
  }

  lemma ShutIsGentle(s: State, s': State, i: nat)
    requires StackOk(s) && StaleOk(s, s.head) && i < |s.threads| && StepShutCas(s, s', i)
    requires s.head == s.threads[i].head && !s.head.shutdown
    ensures Gentle(s, s', 0) && StackOk(s') && PcOk(s', s'.threads[i])
  {
  }

  lemma ShutKeepsOwners(s: State, s': State, i: nat)
    requires OwnerOk(s) && CarrierOk(s) && SetsOk(s) && NodesOk(s) && i < |s.threads|
    requires StepShutCas(s, s', i) && s.head == s.threads[i].head
    ensures OwnerOk(s') && CarrierOk(s') && SetsOk(s') && NodesOk(s')
  {
    ShutKeepsOwnership(s, s', i);
    forall x | x in s'.owner ensures NodeOk(s', x) {
      assert NodeOk(s, x);
      NodeUntouched(s, s', x);
    }
  }

  lemma ShutKeepsOwnership(s: State, s': State, i: nat)
    requires OwnerOk(s) && CarrierOk(s) && i < |s.threads|
    requires StepShutCas(s, s', i) && s.head == s.threads[i].head
    ensures OwnerOk(s') && CarrierOk(s') && forall x | x in s.owner :: s.owner[x] != i
  {
  }

  lemma ShutLoopStep(s: State, s': State, i: nat)
    requires Inv(s) && i < |s.threads| && StepShutLoop(s, s', i)
    ensures Inv(s')
  {
    assert Parts(s);
    var pc := s.threads[i];
    assert PcOk(s, pc);
    LocalStep(s, i, s'.threads[i]);
    if !pc.head.isNode {
      DoneStep(Goto(s, i, Idle));
    }
  }

  lemma DoneStep(s: State)
    requires Inv(s) && s.head.shutdown && s.stack == []
    ensures Inv(s.(shutDone := true))
  {
    assert Parts(s);
    var s' := s.(shutDone := true);
    assert Gentle(s, s', 0);
    forall k | 0 <= k < |s'.threads| ensures PcOk(s', s'.threads[k]) {
      PcKept(s, s', 0, s.threads[k]);
    }
    DoneKeepsNodes(s);
    SleepersOnlyNodes(s, s');
  }

  lemma DoneKeepsNodes(s: State)
    requires OwnerOk(s) && NodesOk(s)
    ensures var s' := s.(shutDone := true); OwnerOk(s') && NodesOk(s')
  {
    var s' := s.(shutDone := true);
    forall x | x in s'.owner ensures NodeOk(s', x) {
      NodeUntouched(s, s', x);
    }
  }

  lemma ShutNoticeStep(s: State, s': State, i: nat)
    requires Inv(s) && i < |s.threads| && StepShutNotice(s, s', i)
    ensures Inv(s')
  {
    assert Parts(s);
    var pc := s.threads[i];
    assert PcOk(s, pc);
    NoticeKeepsThreads(s, s', i);
    NoticeKeepsOwners(s, s', i);
    NoticeKeepsList(s, s', i);
    assert Parts(s');
  }

  lemma NoticeKeepsThreads(s: State, s': State, i: nat)
    requires Inv(s) && i < |s.threads| && StepShutNotice(s, s', i)
    ensures ThreadsOk(s') && SleepersOk(s')
  {
    assert Parts(s);
    assert PcOk(s, s.threads[i]);
    NoticeIsGentle(s, s', i);
    ThreadsKept(s, s', s.threads[i].idx, i);
    SleepersKept(s, s', i);
  }

  lemma NoticeIsGentle(s: State, s': State, i: nat)
    requires OwnerOk(s) && CarrierOk(s) && SetsOk(s) && NodesOk(s) && i < |s.threads|
    requires StepShutNotice(s, s', i) && PcOk(s, s.threads[i])
    ensures Gentle(s, s', s.threads[i].idx) && PcOk(s', s'.threads[i])
    ensures forall k | 0 <= k < |s.threads| && k != i ::
              (OwnNode(s.threads[k]) != s.threads[i].idx || !BeforePush(s.threads[k]))
              && Carried(s.threads[k]) != s.threads[i].idx
  {
    var idx := s.threads[i].idx;
    assert Carried(s.threads[i]) == idx && idx in s.carrier && s.carrier[idx] == i;
    forall k | 0 <= k < |s.threads| && k != i
      ensures (OwnNode(s.threads[k]) != idx || !BeforePush(s.threads[k])) && Carried(s.threads[k]) != idx
    {
      if HasNode(s.threads[k]) {
        assert NodeOk(s, OwnNode(s.threads[k]));
      }
    }
    StaleKept(s, s', idx, s.threads[i].head);
  }

  lemma NoticeKeepsOwners(s: State, s': State, i: nat)
    requires OwnerOk(s) && CarrierOk(s) && SetsOk(s) && NodesOk(s) && i < |s.threads|
    requires StepShutNotice(s, s', i) && s.threads[i].idx > 0 && s.threads[i].idx in s.noticed
    ensures OwnerOk(s') && CarrierOk(s') && SetsOk(s') && NodesOk(s')
  {
    var idx := s.threads[i].idx;
    NoticeKeepsOwnership(s, s', i);
    forall x | x in s'.owner ensures NodeOk(s', x) {
      assert NodeOk(s, x);
      if x != idx {
        NodeUntouched(s, s', x);
      } else {
        NodeNoticed(s, s', x);
      }
    }
  }

  lemma NoticeKeepsOwnership(s: State, s': State, i: nat)
    requires OwnerOk(s) && CarrierOk(s) && i < |s.threads| && StepShutNotice(s, s', i) && s.threads[i].idx > 0
    ensures OwnerOk(s') && CarrierOk(s')
    ensures s.threads[i].idx in s.carrier && forall x | x in s.owner :: s.owner[x] != i
  {
    assert Carried(s.threads[i]) == s.threads[i].idx;
    NoNodeNoOwn(s.threads[i]);
  }

  lemma NodeNoticed(s: State, s': State, idx: nat)
    requires OwnerOk(s) && OwnerOk(s') && SetsOk(s) && idx in s.owner && idx in s'.owner && NodeOk(s, idx)
    requires s'.threads[s'.owner[idx]] == s.threads[s.owner[idx]] && idx in s.noticed && idx in s.carrier
    requires |s'.nodes| == |s.nodes| && s'.nodes[idx] == s.nodes[idx].(next := SHUTDOWN_NOTICE)
    requires s'.carrier == s.carrier && s'.stack == s.stack && s'.handed == s.handed && s'.noticed == s.noticed
    ensures NodeOk(s', idx)
  {
  }

  lemma NoticeKeepsList(s: State, s': State, i: nat)
    requires SetsOk(s) && StackOk(s) && CountOk(s) && ShutOk(s) && i < |s.threads|
    requires StepShutNotice(s, s', i) && PcOk(s, s.threads[i])
    ensures StackOk(s') && CountOk(s') && ShutOk(s')
  {
    forall a | 0 <= a < |s'.stack| ensures LinkOk(s'.nodes, s'.stack, a) {
      assert LinkOk(s.nodes, s.stack, a);
      assert s.stack[a] in s.stack;
    }
  }

  // ------------------------------------------------------------------- runs

  predicate Posting(pc: PC) {
    pc.PostLoad? || pc.PostNext? || pc.PostPop? || pc.PostIncr? || Carrying(pc) || pc.BatonWake?
  }

  lemma PostingStep(s: State, s': State, i: nat)
    requires Inv(s) && i < |s.threads| && Posting(s.threads[i]) && Step(s, s', i)
    ensures Inv(s')
  {
    match s.threads[i]
    case PostLoad(_) => PostLoadStep(s, s', i);
    case PostNext(_, _) => PostNextStep(s, s', i);
    case PostPop(_, _, _) => PostPopStep(s, s', i);
    case PostIncr(_, _) => PostIncrStep(s, s', i);
    case BatonLoad(_, _) => BatonLoadStep(s, s', i);
    case BatonCas(_, _) => BatonCasStep(s, s', i);
    case BatonLate(_, _) => BatonLateStep(s, s', i);
    case BatonWake(_, _) => BatonWakeStep(s, s', i);
  }

  lemma WaitingStep(s: State, s': State, i: nat)
    requires Inv(s) && i < |s.threads| && HasNode(s.threads[i]) && Step(s, s', i)
    ensures Inv(s')
  {
    match s.threads[i]
    case PushLoad(_) => PushLoadStep(s, s', i);
    case PushNext(_, _) => PushNextStep(s, s', i);
    case PushCas(_, _) => PushCasStep(s, s', i);
    case PushDecr(_, _) => PushDecrStep(s, s', i);
    case WaitSpin(_) => WaitSpinStep(s, s', i);
    case WaitCas(_) => WaitCasStep(s, s', i);
    case WaitSleep(_) => WaitSleepStep(s, s', i);
    case WaitAsleep(_) => WaitSleepStep(s, s', i);
    case WaitCheck(_) => WaitCheckStep(s, s', i);
    case Woken(_) => WokenStep(s, s', i);
  }

  lemma OtherStep(s: State, s': State, i: nat)
    requires Inv(s) && i < |s.threads| && !Posting(s.threads[i]) && !HasNode(s.threads[i]) && Step(s, s', i)
    ensures Inv(s')
  {
    match s.threads[i]
    case Idle => var n: nat :| StepStart(s, s', i, n); StartStep(s, s', i, n);
    case TryLoad(_, _) => TryLoadStep(s, s', i);
    case TryCas(_, _, _) => TryCasStep(s, s', i);
    case NeedNode => var idx: nat :| StepAlloc(s, s', i, idx); AllocStep(s, s', i, idx);
    case ShutLoad => ShutLoadStep(s, s', i);
    case ShutCas(_) => ShutCasStep(s, s', i);
    case ShutLoop(_) => ShutLoopStep(s, s', i);
    case ShutPop(_, _) => ShutPopStep(s, s', i);
    case ShutNotice(_, _) => ShutNoticeStep(s, s', i);
  }

  lemma NextInv(s: State, s': State)
    requires Inv(s) && Next(s, s')
    ensures Inv(s')
  {
    var i :| 0 <= i < |s.threads| && Step(s, s', i);
    if Posting(s.threads[i]) {
      PostingStep(s, s', i);
    } else if HasNode(s.threads[i]) {
      WaitingStep(s, s', i);
    } else {
      OtherStep(s, s', i);
    }
  }

  lemma {:induction false} RunInv(run: seq<State>, k: nat)
    requires IsRun(run) && k < |run|
    ensures Inv(run[k])
  {
    if k == 0 {
      RunStartInv(run);
    } else {
      RunInv(run, k - 1);
      RunStepInv(run, k);
    }
  }

  lemma RunStartInv(run: seq<State>)
    requires IsRun(run)
    ensures Inv(run[0])
  {
    InitInv(run[0]);
  }

  lemma RunStepInv(run: seq<State>, k: nat)
    requires IsRun(run) && 0 < k < |run| && Inv(run[k - 1])
    ensures Inv(run[k])
  {
    assert NextAt(run, k - 1);
    NextInv(run[k - 1], run[k]);
  }

  // ---------------------------------------------------------- main theorems

  /** Units are conserved, saturation included: what was there at first and what was
      posted is in the value, was taken by waits that are over, is in the hands of
      popped waiters that have not returned, or was lost to saturation. */
  lemma UnitsConserved(run: seq<State>, k: nat)
    requires IsRun(run) && k < |run|
    ensures var s := run[k];
            s.initial + s.posted == (if s.head.isNode then 0 else s.head.data) + s.taken + |s.handed| + s.lost
  {
    RunInv(run, k);
    assert Parts(run[k]);
  }

  /** Following next from the head visits exactly the waiting nodes, each once. */
  ghost predicate ChainFrom(nodes: seq<Node>, at: nat, chain: seq<nat>)
    decreases |chain|
  {
    if chain == [] then at == 0
    else 0 < at < |nodes| && at == chain[0] && at !in chain[1..] && ChainFrom(nodes, nodes[at].next, chain[1..])
  }

  lemma {:induction false} ListIsChain(nodes: seq<Node>, stack: seq<nat>)
    requires ListOk(nodes, stack)
    ensures ChainFrom(nodes, if stack == [] then 0 else stack[0], stack)
    decreases |stack|
  {
    if stack != [] {
      assert LinkOk(nodes, stack, 0);
      var rest := stack[1..];
      forall a | 0 <= a < |rest| ensures LinkOk(nodes, rest, a) {
        assert LinkOk(nodes, stack, a + 1);
      }
      ListIsChain(nodes, rest);
    }
  }

  /** The wait list never coexists with a positive value and is acyclic; its members
      are exactly the pushed waiters nobody has popped. */
  lemma WaitListIsSound(run: seq<State>, k: nat)
    requires IsRun(run) && k < |run|
    ensures var s := run[k];
            && (if s.head.isNode then s.stack != [] && s.head.data == s.stack[0] else s.stack == [])
            && ChainFrom(s.nodes, if s.stack == [] then 0 else s.stack[0], s.stack)
            && (forall idx :: idx in s.stack <==> Unpopped(s, idx))
  {
    RunInv(run, k);
    assert Parts(run[k]);
    var s := run[k];
    ListIsChain(s.nodes, s.stack);
    forall idx ensures idx in s.stack <==> Unpopped(s, idx) {
      WaiterPosition(s, idx);
    }
  }

  /** The node of a waiter that nobody has popped. */
  ghost predicate Unpopped(s: State, idx: nat) {
    && idx in s.owner && s.owner[idx] < |s.threads| && idx !in s.handed && idx !in s.noticed
    && (Spinning(s.threads[s.owner[idx]]) || Sleeping(s.threads[s.owner[idx]]))
  }

  lemma WaiterPosition(s: State, idx: nat)
    requires OwnerOk(s) && SetsOk(s) && NodesOk(s)
    ensures idx in s.stack <==> Unpopped(s, idx)
  {
    if idx in s.stack || Unpopped(s, idx) {
      assert NodeOk(s, idx);
    }
  }

  /** Whoever returns from the baton was popped exactly one way: with a unit and no
      notice, or by shutdown with a notice and no unit.  Nobody will post it again. */
  lemma WokenExactlyOnce(run: seq<State>, k: nat, i: nat)
    requires IsRun(run) && k < |run| && i < |run[k].threads| && run[k].threads[i].Woken?
    ensures var s, idx := run[k], run[k].threads[i].idx;
            && idx < |s.nodes| && idx !in s.stack && idx !in s.carrier
            && (idx in s.handed <==> s.nodes[idx].next != SHUTDOWN_NOTICE)
            && (idx in s.noticed <==> s.nodes[idx].next == SHUTDOWN_NOTICE)
            && (idx in s.noticed ==> s.head.shutdown)
            && (forall m | 0 <= m < |s.threads| :: Carried(s.threads[m]) != idx)
  {
    RunInv(run, k);
    assert Parts(run[k]);
    WokenNode(run[k], i);
  }

  lemma WokenNode(s: State, i: nat)
    requires 0 < |s.nodes| < SHUTDOWN_NOTICE && OwnerOk(s) && CarrierOk(s) && SetsOk(s) && NodesOk(s)
    requires i < |s.threads| && s.threads[i].Woken?
    ensures var idx := s.threads[i].idx;
            && idx < |s.nodes| && idx !in s.stack && idx !in s.carrier
            && (idx in s.handed <==> s.nodes[idx].next != SHUTDOWN_NOTICE)
            && (idx in s.noticed <==> s.nodes[idx].next == SHUTDOWN_NOTICE)
            && (idx in s.noticed ==> s.head.shutdown)
            && (forall m | 0 <= m < |s.threads| :: Carried(s.threads[m]) != idx)
  {
    var idx := s.threads[i].idx;
    assert HasNode(s.threads[i]) && OwnNode(s.threads[i]) == idx;
    assert NodeOk(s, idx);
    forall m | 0 <= m < |s.threads| ensures Carried(s.threads[m]) != idx {
      if Carried(s.threads[m]) != 0 {
        assert Carried(s.threads[m]) in s.carrier;
      }
    }
  }

  /** Once the shutdown bit is set no node is pushed: the list only loses its top. */
  lemma NoPushAfterShutdown(run: seq<State>, k: nat)
    requires IsRun(run) && k + 1 < |run| && run[k].head.shutdown
    ensures run[k + 1].head.shutdown
    ensures run[k + 1].stack == run[k].stack || (run[k].stack != [] && run[k + 1].stack == run[k].stack[1..])
  {
    RunInv(run, k);
    assert Parts(run[k]);
    assert NextAt(run, k);
    var i :| 0 <= i < |run[k].threads| && Step(run[k], run[k + 1], i);
    assert PcOk(run[k], run[k].threads[i]);
    ClosedStep(run[k], run[k + 1], i);
  }

  lemma ClosedStep(s: State, s': State, i: nat)
    requires i < |s.threads| && PcOk(s, s.threads[i]) && Step(s, s', i) && s.head.shutdown && StackOk(s)
    ensures s'.head.shutdown
    ensures s'.stack == s.stack || (s.stack != [] && s'.stack == s.stack[1..])
  {
    if Posting(s.threads[i]) {
      ClosedPosting(s, s', i);
    } else if HasNode(s.threads[i]) {
      ClosedWaiting(s, s', i);
    }
  }

  lemma ClosedPosting(s: State, s': State, i: nat)
    requires i < |s.threads| && Posting(s.threads[i]) && Step(s, s', i) && s.head.shutdown && StackOk(s)
    requires PcOk(s, s.threads[i])
    ensures s'.head.shutdown
    ensures s'.stack == s.stack || (s.stack != [] && s'.stack == s.stack[1..])
  {
    match s.threads[i]
    case PostPop(_, _, _) =>
    case PostIncr(_, _) =>
    case _ =>
  }

  lemma ClosedWaiting(s: State, s': State, i: nat)
    requires i < |s.threads| && HasNode(s.threads[i]) && Step(s, s', i) && s.head.shutdown
    requires PcOk(s, s.threads[i])
    ensures s'.head.shutdown && s'.stack == s.stack
  {
    match s.threads[i]
    case PushLoad(_) =>
    case PushCas(_, _) =>
    case PushDecr(_, _) =>
    case _ =>
  }

  /** Once any shutdown() has returned, the wait list is empty for good. */
  lemma {:induction false} EmptyAfterShutdown(run: seq<State>, j: nat, k: nat)
    requires IsRun(run) && j <= k < |run| && run[j].shutDone
    ensures run[k].head.shutdown && run[k].stack == []
    decreases k
  {
    if j < k {
      EmptyAfterShutdown(run, j, k - 1);
      NoPushAfterShutdown(run, k - 1);
    } else {
      RunInv(run, k);
      assert Parts(run[k]);
    }
  }

  /** Everybody is outside the semaphore or asleep on a baton. */
  ghost predicate Quiescent(s: State) {
    forall i | 0 <= i < |s.threads| :: s.threads[i].Idle? || s.threads[i].WaitAsleep?
  }

  /** Nobody oversleeps: at rest, every sleeper is still in the wait list, so the value
      is zero and no unit and no notice is on its way. */
  lemma RestsOnlyWithoutUnits(run: seq<State>, k: nat, i: nat)
    requires IsRun(run) && k < |run| && Quiescent(run[k])
    requires i < |run[k].threads| && run[k].threads[i].WaitAsleep?
    ensures run[k].threads[i].idx in run[k].stack && run[k].head.isNode
    ensures run[k].handed == {} && run[k].noticed == {} && !run[k].shutDone
  {
    var s := run[k];
    RunInv(run, k);
    assert Parts(run[k]);
    SleeperInList(s, i);
    forall idx ensures idx !in s.handed && idx !in s.noticed {
      if idx in s.handed || idx in s.noticed {
        assert idx in s.owner;
        OwnerIsAsleep(s, idx);
        SleeperInList(s, s.owner[idx]);
      }
    }
  }

  lemma OwnerIsAsleep(s: State, idx: nat)
    requires OwnerOk(s) && Quiescent(s) && idx in s.owner
    ensures s.threads[s.owner[idx]] == WaitAsleep(idx)
  {
    assert OwnNode(s.threads[s.owner[idx]]) == idx;
  }

  lemma SleeperInList(s: State, i: nat)
    requires OwnerOk(s) && CarrierOk(s) && NodesOk(s) && SleepersOk(s) && Quiescent(s)
    requires i < |s.threads| && s.threads[i].WaitAsleep?
    ensures s.threads[i].idx in s.stack
  {
    var idx := s.threads[i].idx;
    assert HasNode(s.threads[i]) && OwnNode(s.threads[i]) == idx && NodeOk(s, idx);
    assert !WakeInFlight(s, idx);
  }

  // ----------------------------------------------------------- what a call adds up to

  /** The units a post() has still to post. */
  function Owed(pc: PC): nat {
    match pc
    case PostLoad(n) => n
    case PostNext(n, _) => n
    case PostPop(n, _, _) => n
    case PostIncr(n, _) => n
    case BatonLoad(_, MorePosts(n)) => n
    case BatonCas(_, MorePosts(n)) => n
    case BatonLate(_, MorePosts(n)) => n
    case BatonWake(_, MorePosts(n)) => n
    case _ => 0
  }

  lemma StepPosts(s: State, s': State, i: nat)
    requires i < |s.threads| && Step(s, s', i) && Posting(s.threads[i])
    ensures i < |s'.threads| && s'.posted + Owed(s'.threads[i]) == s.posted + Owed(s.threads[i])
  {
    match s.threads[i]
    case PostPop(_, _, _) =>
    case PostIncr(_, _) =>
    case BatonLate(_, _) =>
    case BatonWake(_, _) => WakePosts(s, s', i);
    case _ =>
  }

  lemma WakePosts(s: State, s': State, i: nat)
    requires i < |s.threads| && StepBatonWake(s, s', i)
    ensures |s'.threads| == |s.threads| && s'.posted == s.posted && s'.threads[i] == Continue(s.threads[i].after)
    ensures forall k | 0 <= k < |s.threads| && k != i :: s'.threads[k] == s.threads[k] || s.threads[k].WaitAsleep?
  {
  }

  /** A step of another thread does not touch a thread that is not asleep. */
  lemma OthersStand(s: State, s': State, i: nat, k: nat)
    requires i < |s.threads| && k < |s.threads| && i != k && Step(s, s', i)
    ensures |s'.threads| == |s.threads| && (s'.threads[k] == s.threads[k] || s.threads[k].WaitAsleep?)
  {
    if s.threads[i].BatonWake? {
      WakePosts(s, s', i);
    } else if Posting(s.threads[i]) {
      PosterAlone(s, s', i);
    } else if HasNode(s.threads[i]) {
      WaiterAlone(s, s', i);
    } else {
      OtherAlone(s, s', i);
    }
  }

  /** Only thread i moves. */
  ghost predicate Alone(s: State, s': State, i: nat) {
    |s'.threads| == |s.threads| && forall k | 0 <= k < |s.threads| && k != i :: s'.threads[k] == s.threads[k]
  }

  lemma PosterAlone(s: State, s': State, i: nat)
    requires i < |s.threads| && Step(s, s', i) && Posting(s.threads[i]) && !s.threads[i].BatonWake?
    ensures Alone(s, s', i)
  {
    match s.threads[i]
    case PostPop(_, _, _) =>
    case _ =>
  }

  lemma WaiterAlone(s: State, s': State, i: nat)
    requires i < |s.threads| && Step(s, s', i) && HasNode(s.threads[i])
    ensures Alone(s, s', i)
  {
    if s.threads[i].PushLoad? {
      PusherAlone(s, s', i);
    }
  }

  lemma PusherAlone(s: State, s': State, i: nat)
    requires i < |s.threads| && Step(s, s', i) && s.threads[i].PushLoad?
    ensures Alone(s, s', i)
  {
  }

  lemma OtherAlone(s: State, s': State, i: nat)
    requires i < |s.threads| && Step(s, s', i) && !Posting(s.threads[i]) && !HasNode(s.threads[i])
    ensures Alone(s, s', i)
  {
    match s.threads[i]
    case ShutPop(_, _) =>
    case _ =>
  }

  /** Units posted between states b and e by the steps that move thread i. */
  ghost function PostedBy(run: seq<State>, i: nat, b: nat, e: nat): int
    requires b <= e < |run| && forall x | b <= x <= e :: i < |run[x].threads|
    decreases e
  {
    if b == e then 0
    else PostedBy(run, i, b, e - 1) + if run[e - 1].threads[i] == run[e].threads[i] then 0 else run[e].posted - run[e - 1].posted
  }

  /** The same of units taken. */
  ghost function TakenBy(run: seq<State>, i: nat, b: nat, e: nat): int
    requires b <= e < |run| && forall x | b <= x <= e :: i < |run[x].threads|
    decreases e
  {
    if b == e then 0
    else TakenBy(run, i, b, e - 1) + if run[e - 1].threads[i] == run[e].threads[i] then 0 else run[e].taken - run[e - 1].taken
  }

  lemma PostRunStep(run: seq<State>, k: nat, i: nat)
    requires IsRun(run) && k + 1 < |run| && i < |run[k].threads| && i < |run[k + 1].threads| && Posting(run[k].threads[i])
    ensures run[k].threads[i] == run[k + 1].threads[i]
            || run[k + 1].posted + Owed(run[k + 1].threads[i]) == run[k].posted + Owed(run[k].threads[i])
  {
    assert NextAt(run, k);
    var a :| 0 <= a < |run[k].threads| && Step(run[k], run[k + 1], a);
    if a == i {
      StepPosts(run[k], run[k + 1], i);
    } else {
      OthersStand(run[k], run[k + 1], a, i);
    }
  }

  /** A call post(n) that has returned has posted n units, one that has not returned n less
      those it still owes. */
  lemma {:induction false} PostPostsItsUnits(run: seq<State>, i: nat, n: nat, b: nat, e: nat)
    requires IsRun(run) && b <= e < |run| && (forall x | b <= x <= e :: i < |run[x].threads|)
    requires run[b].threads[i] == PostLoad(n) && forall x | b <= x < e :: Posting(run[x].threads[i])
    ensures PostedBy(run, i, b, e) + Owed(run[e].threads[i]) == n
    decreases e
  {
    if b < e {
      PostPostsItsUnits(run, i, n, b, e - 1);
      PostRunStep(run, e - 1, i);
    }
  }

  predicate Trying(pc: PC) { pc.TryLoad? || pc.TryCas? }

  /** What is left to take in state s' after the try s made. */
  lemma StepTakes(s: State, s': State, i: nat)
    requires i < |s.threads| && Step(s, s', i) && Trying(s.threads[i]) && PcOk(s, s.threads[i])
    ensures i < |s'.threads| && s.taken <= s'.taken
    ensures Trying(s'.threads[i]) ==> s'.taken + s'.threads[i].n == s.taken + s.threads[i].n
    ensures !Trying(s'.threads[i]) ==> s'.taken == s.taken + if s.threads[i].TryLoad? then 0 else s.threads[i].n
  {
  }

  lemma TryRunStep(run: seq<State>, k: nat, i: nat)
    requires IsRun(run) && k + 1 < |run| && i < |run[k].threads| && i < |run[k + 1].threads| && Trying(run[k].threads[i])
    ensures var pc, pc' := run[k].threads[i], run[k + 1].threads[i];
            || pc == pc'
            || (Trying(pc') && run[k + 1].taken + pc'.n == run[k].taken + pc.n)
            || (!Trying(pc') && run[k + 1].taken == run[k].taken + if pc.TryLoad? then 0 else pc.n)
  {
    assert NextAt(run, k);
    var a :| 0 <= a < |run[k].threads| && Step(run[k], run[k + 1], a);
    if a == i {
      RunInv(run, k);
      assert Parts(run[k]);
      StepTakes(run[k], run[k + 1], i);
    } else {
      OthersStand(run[k], run[k + 1], a, i);
    }
  }

  lemma {:induction false} TriesTakeTheirUnits(run: seq<State>, i: nat, n: nat, blocking: bool, b: nat, e: nat)
    requires IsRun(run) && b <= e < |run| && (forall x | b <= x <= e :: i < |run[x].threads|)
    requires run[b].threads[i] == TryLoad(n, blocking) && (forall x | b <= x <= e :: Trying(run[x].threads[i]))
    requires Trying(run[e].threads[i])
    ensures TakenBy(run, i, b, e) == n - run[e].threads[i].n
    decreases e
  {
    if b < e {
      TriesTakeTheirUnits(run, i, n, blocking, b, e - 1);
      TryRunStep(run, e - 1, i);
    }
  }

  /** tryWait(n) has taken what it returns: n, or n less what was left when it found nothing. */
  lemma TryWaitReturnsTaken(run: seq<State>, i: nat, n: nat, b: nat, e: nat)
    requires IsRun(run) && b <= e && e + 1 < |run| && (forall x | b <= x <= e + 1 :: i < |run[x].threads|)
    requires run[b].threads[i] == TryLoad(n, false) && (forall x | b <= x <= e :: Trying(run[x].threads[i]))
    requires run[e + 1].threads[i].Idle?
    ensures TakenBy(run, i, b, e + 1) == n - if run[e].threads[i].TryLoad? then run[e].threads[i].n else 0
    ensures run[e].threads[i].TryLoad? ==> Value(run[e]) == 0
  {
    TriesTakeTheirUnits(run, i, n, false, b, e);
    TryRunStep(run, e, i);
    if run[e].threads[i].TryLoad? {
      GivesUp(run, e, i);
    }
  }

  lemma GivesUp(run: seq<State>, k: nat, i: nat)
    requires IsRun(run) && k + 1 < |run| && i < |run[k].threads| && i < |run[k + 1].threads|
    requires run[k].threads[i].TryLoad? && run[k + 1].threads[i].Idle?
    ensures Value(run[k]) == 0
  {
    assert NextAt(run, k);
    var a :| 0 <= a < |run[k].threads| && Step(run[k], run[k + 1], a);
    if a != i {
      OthersStand(run[k], run[k + 1], a, i);
    }
  }

  // ------------------------------------------------------------------ what a wait() did

  /** Inside wait(). */
  predicate Waits(pc: PC) {
    (Trying(pc) && pc.n == 1 && pc.blocking) || pc.NeedNode? || HasNode(pc)
  }

  /** The call throws: shut down with nothing to take, or expelled from the wait list. */
  ghost predicate Refused(s: State, i: nat)
    requires i < |s.threads|
  {
    s.head.shutdown && (Value(s) == 0 || (s.threads[i].Woken? && s.threads[i].idx in s.noticed))
  }

  lemma TryingWaits(s: State, s': State, i: nat)
    requires i < |s.threads| && Step(s, s', i) && Trying(s.threads[i]) && PcOk(s, s.threads[i])
    requires s.threads[i].n == 1 && s.threads[i].blocking
    ensures i < |s'.threads| && if s'.threads[i].Idle? then s'.taken == s.taken + 1 else Waits(s'.threads[i]) && s'.taken == s.taken
  {
  }

  lemma PushingWaits(s: State, s': State, i: nat)
    requires i < |s.threads| && Step(s, s', i) && PcOk(s, s.threads[i]) && (s.threads[i].NeedNode? || BeforePush(s.threads[i]))
    ensures i < |s'.threads|
    ensures if s'.threads[i].Idle? then s'.taken == s.taken + 1 || (s'.taken == s.taken && s.head.shutdown && Value(s) == 0)
            else Waits(s'.threads[i]) && s'.taken == s.taken
  {
  }

  lemma SleepingWaits(s: State, s': State, i: nat)
    requires i < |s.threads| && Step(s, s', i) && (Spinning(s.threads[i]) || Sleeping(s.threads[i]))
    ensures i < |s'.threads| && Waits(s'.threads[i]) && s'.taken == s.taken
  {
  }

  lemma WokenReturns(s: State, s': State, i: nat)
    requires i < |s.threads| && Step(s, s', i) && s.threads[i].Woken? && Inv(s)
    ensures i < |s'.threads| && s'.threads[i].Idle? && (s'.taken == s.taken + 1 || (s'.taken == s.taken && Refused(s, i)))
  {
    assert Parts(s);
    WokenNode(s, i);
  }

  lemma WaitStep(s: State, s': State, i: nat)
    requires i < |s.threads| && Step(s, s', i) && Waits(s.threads[i]) && Inv(s)
    ensures i < |s'.threads|
    ensures if s'.threads[i].Idle? then s'.taken == s.taken + 1 || (s'.taken == s.taken && Refused(s, i))
            else Waits(s'.threads[i]) && s'.taken == s.taken
  {
    assert Parts(s);
    assert PcOk(s, s.threads[i]);
    if Trying(s.threads[i]) {
      TryingWaits(s, s', i);
    } else if s.threads[i].Woken? {
      WokenReturns(s, s', i);
    } else if s.threads[i].NeedNode? || BeforePush(s.threads[i]) {
      PushingWaits(s, s', i);
    } else {
      SleepingWaits(s, s', i);
    }
  }

  /** Others can only wake a sleeper. */
  lemma OthersWake(s: State, s': State, i: nat, k: nat)
    requires i < |s.threads| && k < |s.threads| && i != k && Step(s, s', i)
    ensures k < |s'.threads| && (s'.threads[k] == s.threads[k] || (s.threads[k].WaitAsleep? && s'.threads[k].WaitCheck? && s'.taken == s.taken))
  {
    OthersStand(s, s', i, k);
    if s.threads[i].BatonWake? {
      WakesOne(s, s', i);
    } else if Posting(s.threads[i]) {
      PosterAlone(s, s', i);
    } else if HasNode(s.threads[i]) {
      WaiterAlone(s, s', i);
    } else {
      OtherAlone(s, s', i);
    }
  }

  lemma WakesOne(s: State, s': State, i: nat)
    requires i < |s.threads| && StepBatonWake(s, s', i)
    ensures s'.taken == s.taken && |s'.threads| == |s.threads|
    ensures forall k | 0 <= k < |s.threads| && k != i && s'.threads[k] != s.threads[k] :: s'.threads[k].WaitCheck?
  {
  }

  lemma WaitRunStep(run: seq<State>, k: nat, i: nat)
    requires IsRun(run) && k + 1 < |run| && i < |run[k].threads| && i < |run[k + 1].threads| && Waits(run[k].threads[i])
    ensures run[k + 1].threads[i] == run[k].threads[i]
            || (Waits(run[k + 1].threads[i]) && run[k + 1].taken == run[k].taken)
            || (run[k + 1].threads[i].Idle?
                && (run[k + 1].taken == run[k].taken + 1 || (run[k + 1].taken == run[k].taken && Refused(run[k], i))))
  {
    assert NextAt(run, k);
    var a :| 0 <= a < |run[k].threads| && Step(run[k], run[k + 1], a);
    RunInv(run, k);
    if a == i {
      WaitStep(run[k], run[k + 1], i);
    } else {
      OthersWake(run[k], run[k + 1], a, i);
    }
  }

  lemma {:induction false} WaitTakesNothingYet(run: seq<State>, i: nat, b: nat, e: nat)
    requires IsRun(run) && b <= e < |run| && (forall x | b <= x <= e :: i < |run[x].threads| && !run[x].threads[i].Idle?)
    requires run[b].threads[i] == TryLoad(1, true)
    ensures Waits(run[e].threads[i]) && TakenBy(run, i, b, e) == 0
    decreases e
  {
    if b < e {
      WaitTakesNothingYet(run, i, b, e - 1);
      WaitRunStep(run, e - 1, i);
    }
  }

  /** A wait() that is over has taken exactly one unit, or none, having found the semaphore shut
      down with nothing to take or having been expelled by shutdown(). */
  lemma WaitTakesOneOrIsRefused(run: seq<State>, i: nat, b: nat, e: nat)
    requires IsRun(run) && b <= e && e + 1 < |run| && (forall x | b <= x <= e :: i < |run[x].threads| && !run[x].threads[i].Idle?)
    requires run[b].threads[i] == TryLoad(1, true) && i < |run[e + 1].threads| && run[e + 1].threads[i].Idle?
    ensures TakenBy(run, i, b, e + 1) == 1 || (TakenBy(run, i, b, e + 1) == 0 && Refused(run[e], i))
  {
    WaitTakesNothingYet(run, i, b, e);
    WaitRunStep(run, e, i);
  }

  // ------------------------------------------------------------- what a shutdown() did

  /** Inside shutdown(). */
  predicate Shuts(pc: PC) {
    || pc.ShutLoad? || pc.ShutCas? || pc.ShutLoop? || pc.ShutPop? || pc.ShutNotice?
    || ((Carrying(pc) || pc.BatonWake?) && pc.after.MoreShutdown?)
  }

  lemma ShutLeaves(s: State, s': State, i: nat)
    requires i < |s.threads| && Step(s, s', i) && Shuts(s.threads[i]) && i < |s'.threads| && s'.threads[i].Idle?
    ensures s.threads[i].ShutLoop? && !s.threads[i].head.isNode
  {
    if s.threads[i].BatonWake? {
      WakePosts(s, s', i);
    }
  }

  /** When shutdown() returns, the semaphore is shut down and the wait list empty, for good. */
  lemma ShutdownReturnsEmpty(run: seq<State>, k: nat, i: nat, e: nat)
    requires IsRun(run) && k + 1 <= e < |run| && i < |run[k].threads| && i < |run[k + 1].threads|
    requires Shuts(run[k].threads[i]) && run[k + 1].threads[i].Idle?
    ensures run[e].head.shutdown && run[e].stack == []
  {
    assert NextAt(run, k);
    var a :| 0 <= a < |run[k].threads| && Step(run[k], run[k + 1], a);
    if a != i {
      OthersStand(run[k], run[k + 1], a, i);
    }
    ShutLeaves(run[k], run[k + 1], i);
    RunInv(run, k);
    assert Parts(run[k]);
    assert PcOk(run[k], run[k].threads[i]);
    ClosedEmpty(run, k, e);
  }

  lemma {:induction false} ClosedEmpty(run: seq<State>, k: nat, e: nat)
    requires IsRun(run) && k <= e < |run| && run[k].head.shutdown && run[k].stack == []
    ensures run[e].head.shutdown && run[e].stack == []
    decreases e
  {
    if k < e {
      ClosedEmpty(run, k, e - 1);
      NoPushAfterShutdown(run, e - 1);
    }
  }

  // ------------------------------------------------------------------ nobody is stuck

  /** The side conditions of the steps never stop a thread that is running: only a call that
      needs a wait node while all are owned can be held up. */
  lemma RunningThreadCanStep(s: State, i: nat) returns (s': State)
    requires Inv(s) && i < |s.threads| && !s.threads[i].Idle? && !s.threads[i].WaitAsleep?
    requires s.threads[i].NeedNode? ==> exists idx: nat :: 0 < idx < |s.nodes| && idx !in s.owner
    ensures Step(s, s', i)
  {
    assert Parts(s);
    assert PcOk(s, s.threads[i]);
    if Posting(s.threads[i]) {
      s' := PosterCanStep(s, i);
    } else if HasNode(s.threads[i]) {
      assert OwnNode(s.threads[i]) in s.owner;
      s' := WaiterCanStep(s, i);
    } else {
      s' := OtherCanStep(s, i);
    }
  }

  lemma PosterCanStep(s: State, i: nat) returns (s': State)
    requires i < |s.threads| && PcOk(s, s.threads[i]) && Posting(s.threads[i])
    ensures Step(s, s', i)
  {
    match s.threads[i]
    case PostLoad(n) => s' := Goto(s, i, if s.head.isNode then PostNext(n, s.head) else PostIncr(n, s.head));
    case PostNext(n, h) => s' := Goto(s, i, PostPop(n, h, s.nodes[h.data].next));
    case PostPop(n, h, next) =>
      var popped := s.(head := h.WithPop(next), stack := if s.stack == [] then [] else s.stack[1..],
                       carrier := s.carrier[h.data := i], handed := s.handed + {h.data}, posted := s.posted + 1);
      s' := if s.head == h then Goto(popped, i, BatonLoad(h.data, MorePosts(n - 1))) else Goto(s, i, PostLoad(n));
    case PostIncr(n, h) =>
      var added := s.(head := h.WithValueIncr(n), posted := s.posted + n,
                      lost := s.lost + if h.data + n > MAX_VALUE then h.data + n - MAX_VALUE else 0);
      s' := if s.head == h then Goto(added, i, Idle) else Goto(s, i, PostLoad(n));
    case _ => s' := BatonCanStep(s, i);
  }

  lemma BatonCanStep(s: State, i: nat) returns (s': State)
    requires i < |s.threads| && PcOk(s, s.threads[i])
    requires var pc := s.threads[i]; pc.BatonLoad? || pc.BatonCas? || pc.BatonLate? || pc.BatonWake?
    ensures Step(s, s', i)
  {
    var pc := s.threads[i];
    var idx, after := pc.idx, pc.after;
    var taken := s.(carrier := s.carrier - {idx});
    match pc
    case BatonLoad(_, _) => s' := Goto(s, i, if s.nodes[idx].baton.INIT? then BatonCas(idx, after) else BatonLate(idx, after));
    case BatonCas(_, _) =>
      s' := if s.nodes[idx].baton.INIT?
            then Goto(taken.(nodes := s.nodes[idx := s.nodes[idx].(baton := EARLY_DELIVERY)]), i, Continue(after))
            else Goto(s, i, BatonLate(idx, after));
    case BatonLate(_, _) => s' := Goto(taken.(nodes := s.nodes[idx := s.nodes[idx].(baton := LATE_DELIVERY)]), i, BatonWake(idx, after));
    case BatonWake(_, _) =>
      if k :| 0 <= k < |s.threads| && s.threads[k] == WaitAsleep(idx) {
        s' := s.(threads := s.threads[i := Continue(after)][k := WaitCheck(idx)]);
      } else {
        s' := Goto(s, i, Continue(after));
      }
  }

  lemma WaiterCanStep(s: State, i: nat) returns (s': State)
    requires i < |s.threads| && PcOk(s, s.threads[i]) && HasNode(s.threads[i]) && OwnNode(s.threads[i]) < |s.nodes|
    requires !s.threads[i].WaitAsleep?
    ensures Step(s, s', i)
  {
    var pc := s.threads[i];
    var idx := OwnNode(pc);
    var node, free := s.nodes[idx], s.(owner := s.owner - {idx});
    match pc
    case PushLoad(_) =>
      s' := if !s.head.isNode && s.head.data > 0 then Goto(s, i, PushDecr(idx, s.head))
            else if s.head.shutdown then Goto(free, i, Idle) else Goto(s, i, PushNext(idx, s.head));
    case PushNext(_, h) => s' := Goto(s.(nodes := s.nodes[idx := node.(next := Link(h))]), i, PushCas(idx, h));
    case PushCas(_, h) =>
      s' := if s.head == h then Goto(s.(head := h.WithPush(idx), stack := [idx] + s.stack), i, WaitSpin(idx))
            else Goto(s, i, PushLoad(idx));
    case PushDecr(_, h) =>
      s' := if s.head == h then Goto(free.(head := h.WithValueDecr(1), taken := s.taken + 1), i, Idle) else Goto(s, i, PushLoad(idx));
    case WaitSpin(_) => s' := Goto(s, i, if node.baton.EARLY_DELIVERY? then Woken(idx) else WaitCas(idx));
    case WaitCas(_) =>
      s' := if node.baton.INIT? then Goto(s.(nodes := s.nodes[idx := node.(baton := WAITING)]), i, WaitSleep(idx))
            else Goto(s, i, Woken(idx));
    case WaitSleep(_) => s' := Goto(s, i, if node.baton.WAITING? then WaitAsleep(idx) else WaitCheck(idx));
    case WaitCheck(_) => s' := Goto(s, i, if node.baton.LATE_DELIVERY? then Woken(idx) else WaitSleep(idx));
    case Woken(_) =>
      s' := Goto(free.(handed := s.handed - {idx}, noticed := s.noticed - {idx},
                       taken := s.taken + if node.next == SHUTDOWN_NOTICE then 0 else 1), i, Idle);
  }

  lemma OtherCanStep(s: State, i: nat) returns (s': State)
    requires i < |s.threads| && PcOk(s, s.threads[i]) && !Posting(s.threads[i]) && !HasNode(s.threads[i]) && !s.threads[i].Idle?
    requires s.threads[i].NeedNode? ==> exists idx: nat :: 0 < idx < |s.nodes| && idx !in s.owner
    ensures Step(s, s', i)
  {
    match s.threads[i]
    case TryLoad(n, blocking) =>
      s' := Goto(s, i, if !s.head.isNode && s.head.data > 0 then TryCas(n, s.head, blocking) else if blocking then NeedNode else Idle);
    case TryCas(n, h, blocking) =>
      var delta := if n < h.data then n else h.data;
      s' := if s.head == h
            then Goto(s.(head := h.WithValueDecr(delta), taken := s.taken + delta), i, if n == delta then Idle else TryLoad(n - delta, blocking))
            else Goto(s, i, TryLoad(n, blocking));
    case NeedNode =>
      var idx: nat :| 0 < idx < |s.nodes| && idx !in s.owner;
      s' := Goto(s.(nodes := s.nodes[idx := Node(0, INIT)], owner := s.owner[idx := i]), i, PushLoad(idx));
      assert StepAlloc(s, s', i, idx);
    case ShutLoad => s' := Goto(s, i, if s.head.shutdown then ShutLoop(s.head) else ShutCas(s.head));
    case ShutCas(h) =>
      s' := if s.head == h then Goto(s.(head := h.WithShutdown()), i, ShutLoop(h.WithShutdown()))
            else Goto(s, i, if s.head.shutdown then ShutLoop(s.head) else ShutCas(s.head));
    case ShutLoop(h) =>
      s' := if !h.isNode then Goto(s.(shutDone := true), i, Idle) else Goto(s, i, ShutPop(h, s.nodes[h.data].next));
    case ShutPop(h, next) =>
      var popped := s.(head := h.WithPop(next), stack := if s.stack == [] then [] else s.stack[1..],
                       carrier := s.carrier[h.data := i], noticed := s.noticed + {h.data});
      s' := if s.head == h then Goto(popped, i, ShutNotice(h.data, h.WithPop(next))) else Goto(s, i, ShutLoop(s.head));
    case ShutNotice(idx, h) =>
      s' := Goto(s.(nodes := s.nodes[idx := s.nodes[idx].(next := SHUTDOWN_NOTICE)]), i, BatonLoad(idx, MoreShutdown(h)));
  }

  // --------------------------------------------------- the abstract semaphore

  /** What the lock-free word stands for. */
  datatype Sem = Sem(value: nat, waiters: seq<nat>, closed: bool, granted: set<nat>, expelled: set<nat>)

  function Abs(s: State): Sem { Sem(Value(s), s.stack, s.head.shutdown, s.handed, s.noticed) }

  ghost predicate Posts(a: Sem, b: Sem, n: nat) {
    a.waiters == [] && b == a.(value := if a.value + n > MAX_VALUE then MAX_VALUE else a.value + n)
  }

  ghost predicate Takes(a: Sem, b: Sem, d: nat) {
    0 < d <= a.value && b == a.(value := a.value - d)
  }

  ghost predicate Blocks(a: Sem, b: Sem, w: nat) {
    && a.value == 0 && !a.closed && w !in a.waiters && w !in a.granted && w !in a.expelled
    && b == a.(waiters := [w] + a.waiters)
  }

  ghost predicate Returns(a: Sem, b: Sem, w: nat) {
    w in a.granted + a.expelled && b == a.(granted := a.granted - {w}, expelled := a.expelled - {w})
  }

  /** Every way the abstract semaphore may move, each in one indivisible step: a post
      with nobody waiting, or serving the last to come; a wait that need not block, or
      one that does; closing, and expelling a waiter; a waiter's return. */
  ghost predicate SemNext(a: Sem, b: Sem) {
    || (exists n: nat :: Posts(a, b, n))
    || (a.waiters != [] && b == a.(waiters := a.waiters[1..], granted := a.granted + {a.waiters[0]}))
    || (exists d: nat :: Takes(a, b, d))
    || (exists w: nat :: Blocks(a, b, w))
    || b == a.(closed := true)
    || (a.closed && a.waiters != [] && b == a.(waiters := a.waiters[1..], expelled := a.expelled + {a.waiters[0]}))
    || (exists w: nat :: Returns(a, b, w))
  }

  /** Every step of the protocol is one step of the abstract semaphore, or invisible. */
  lemma RefinesSemaphore(run: seq<State>, k: nat)
    requires IsRun(run) && k + 1 < |run|
    ensures Abs(run[k + 1]) == Abs(run[k]) || SemNext(Abs(run[k]), Abs(run[k + 1]))
  {
    RunInv(run, k);
    assert Parts(run[k]);
    assert NextAt(run, k);
    var i :| 0 <= i < |run[k].threads| && Step(run[k], run[k + 1], i);
    assert PcOk(run[k], run[k].threads[i]);
    StepRefines(run[k], run[k + 1], i);
  }

  /** What the refinement of one step needs to know. */
  ghost predicate Enough(s: State, i: nat) {
    && i < |s.threads| && StackOk(s) && OwnerOk(s) && CarrierOk(s) && SetsOk(s) && NodesOk(s) && PcOk(s, s.threads[i])
  }

  lemma StepRefines(s: State, s': State, i: nat)
    requires Enough(s, i) && Step(s, s', i)
    ensures Abs(s') == Abs(s) || SemNext(Abs(s), Abs(s'))
  {
    if Posting(s.threads[i]) {
      PostingRefines(s, s', i);
    } else if HasNode(s.threads[i]) {
      WaitingRefines(s, s', i);
    } else {
      OtherRefines(s, s', i);
    }
  }

  lemma PostingRefines(s: State, s': State, i: nat)
    requires i < |s.threads| && StackOk(s) && PcOk(s, s.threads[i]) && Posting(s.threads[i]) && Step(s, s', i)
    ensures Abs(s') == Abs(s) || SemNext(Abs(s), Abs(s'))
  {
    var pc := s.threads[i];
    if pc.PostIncr? && s.head == pc.head {
      assert Posts(Abs(s), Abs(s'), pc.n);
    } else if pc.PostPop? && s.head == pc.head {
      assert LinkOk(s.nodes, s.stack, 0);
      assert Value(s') == 0;
    }
  }

  lemma WaitingRefines(s: State, s': State, i: nat)
    requires Enough(s, i) && HasNode(s.threads[i]) && Step(s, s', i)
    ensures Abs(s') == Abs(s) || SemNext(Abs(s), Abs(s'))
  {
    var pc := s.threads[i];
    var idx := OwnNode(pc);
    assert NodeOk(s, idx);
    if pc.PushDecr? && s.head == pc.head {
      assert Takes(Abs(s), Abs(s'), 1);
    } else if pc.PushCas? && s.head == pc.head {
      assert Blocks(Abs(s), Abs(s'), idx);
    } else if pc.Woken? {
      assert Returns(Abs(s), Abs(s'), idx);
    }
  }

  lemma OtherRefines(s: State, s': State, i: nat)
    requires i < |s.threads| && StackOk(s) && PcOk(s, s.threads[i]) && Step(s, s', i)
    requires !Posting(s.threads[i]) && !HasNode(s.threads[i])
    ensures Abs(s') == Abs(s) || SemNext(Abs(s), Abs(s'))
  {
    var pc := s.threads[i];
    if pc.TryCas? {
      TryCasRefines(s, s', i);
    } else if pc.ShutPop? {
      ShutPopRefines(s, s', i);
    } else if pc.ShutCas? {
      ShutCasRefines(s, s', i);
    }
  }

  lemma TryCasRefines(s: State, s': State, i: nat)
    requires i < |s.threads| && PcOk(s, s.threads[i]) && StepTryCas(s, s', i)
    ensures Abs(s') == Abs(s) || SemNext(Abs(s), Abs(s'))
  {
    var pc := s.threads[i];
    if s.head == pc.head {
      assert Takes(Abs(s), Abs(s'), if pc.n < pc.head.data then pc.n else pc.head.data);
    }
  }

  lemma ShutPopRefines(s: State, s': State, i: nat)
    requires i < |s.threads| && StackOk(s) && PcOk(s, s.threads[i]) && StepShutPop(s, s', i)
    ensures Abs(s') == Abs(s) || SemNext(Abs(s), Abs(s'))
  {
    if s.head == s.threads[i].head {
      assert LinkOk(s.nodes, s.stack, 0);
      assert Value(s') == 0;
    }
  }

  lemma ShutCasRefines(s: State, s': State, i: nat)
    requires i < |s.threads| && StepShutCas(s, s', i)
    ensures Abs(s') == Abs(s) || SemNext(Abs(s), Abs(s'))
  {
    if s.head == s.threads[i].head {
      assert Abs(s') == Abs(s).(closed := true);
    }
  }

  /** A step of the semaphore changes the list of waiters at its newest end only. */
  lemma WaitersStep(a: Sem, b: Sem)
    requires a == b || SemNext(a, b)
    ensures b.waiters == a.waiters || (a.waiters != [] && b.waiters == a.waiters[1..])
            || (b.waiters != [] && b.waiters[0] !in a.waiters && b.waiters[1..] == a.waiters)
  {
    if w: nat :| Blocks(a, b, w) {
      assert b.waiters[1..] == a.waiters;
    }
  }

  /** The list ends with `rest`. */
  predicate EndsWith(now: seq<nat>, rest: seq<nat>) {
    |rest| <= |now| && now[|now| - |rest|..] == rest
  }

  lemma TailStays(now: seq<nat>, next: seq<nat>, rest: seq<nat>)
    requires EndsWith(now, rest) && rest != [] && rest[0] in next
    requires forall a, b | 0 <= a < b < |now| :: now[a] != now[b]
    requires next == now || (now != [] && next == now[1..]) || (next != [] && next[0] !in now && next[1..] == now)
    ensures EndsWith(next, rest)
  {
    if next != now && now != [] && next == now[1..] {
      assert now[|now| - |rest|] == rest[0];
      var a :| 0 <= a < |next| && next[a] == rest[0];
      assert now[a + 1] == rest[0];
    } else if next != now {
      assert next[|next| - |rest|..] == next[1..][|now| - |rest|..];
    }
  }

  lemma WaitersMove(run: seq<State>, k: nat)
    requires IsRun(run) && k + 1 < |run|
    ensures var now, next := run[k].stack, run[k + 1].stack;
            && (forall a, b | 0 <= a < b < |now| :: now[a] != now[b])
            && (next == now || (now != [] && next == now[1..]) || (next != [] && next[0] !in now && next[1..] == now))
  {
    RunInv(run, k);
    assert Parts(run[k]);
    RefinesSemaphore(run, k);
    WaitersStep(Abs(run[k]), Abs(run[k + 1]));
  }

  /** While a waiter waits, all who waited when it was q-th from the top still wait behind it, in
      the same order: nobody is woken before one who came later. */
  lemma {:induction false} LastComeFirstServed(run: seq<State>, q: nat, b: nat, e: nat)
    requires IsRun(run) && b <= e < |run| && q < |run[b].stack|
    requires forall x | b <= x <= e :: run[b].stack[q] in run[x].stack
    ensures EndsWith(run[e].stack, run[b].stack[q..])
    decreases e
  {
    if b < e {
      LastComeFirstServed(run, q, b, e - 1);
      WaitersMove(run, e - 1);
      TailStays(run[e - 1].stack, run[e].stack, run[b].stack[q..]);
    }
  }
}
