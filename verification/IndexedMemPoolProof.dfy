/** What every run of the IndexedMemPool step system keeps. */
module IndexedMemPoolProof {
  import opened IndexedMemPool

  // ---------------------------------------------------------------- the ledger

  ghost predicate BagAt(l: Ledger, w: Where, p: nat)
    requires p < |l.Bag(w)|
  {
    0 < l.Bag(w)[p] < |l.place| && l.place[l.Bag(w)[p]] == At(w, p)
  }

  ghost predicate InBag(l: Ledger, x: nat)
    requires x < |l.place| && l.place[x].At?
  {
    && l.place[x].pos < |l.Bag(l.place[x].where)|
    && l.Bag(l.place[x].where)[l.place[x].pos] == x
  }

  /** Bags and places are inverse to each other: nothing is in two bags, or twice in one. */
  ghost predicate LedgerOk(l: Ledger) {
    && (forall w, p | 0 <= p < |l.Bag(w)| :: BagAt(l, w, p))
    && (forall x | 0 <= x < |l.place| && l.place[x].At? :: InBag(l, x))
  }

  /** Only bags a and b differ, and nothing is born or enters or leaves client hands. */
  ghost predicate Moved(l: Ledger, l': Ledger, a: Where, b: Where) {
    && |l'.place| == |l.place|
    && (forall w | w != a && w != b :: l'.Bag(w) == l.Bag(w))
    && (forall x | 0 <= x < |l.place| ::
          (l'.place[x].Client? <==> l.place[x].Client?) && (l'.place[x].Unborn? <==> l.place[x].Unborn?))
  }

  lemma MoveTopOk(l: Ledger, from: Where, to: Where)
    requires LedgerOk(l) && from != to && l.Bag(from) != []
    ensures LedgerOk(l.MoveTop(from, to)) && Moved(l, l.MoveTop(from, to), from, to)
    ensures l.MoveTop(from, to).Bag(from) == l.Bag(from)[..|l.Bag(from)| - 1]
    ensures l.MoveTop(from, to).Bag(to) == l.Bag(to) + [l.Top(from)]
  {
    var b := l.Bag(from);
    assert BagAt(l, from, |b| - 1);
    var l' := l.MoveTop(from, to);
    assert forall w | w != from && w != to :: l'.Bag(w) == l.Bag(w);
    forall w, p | 0 <= p < |l'.Bag(w)| ensures BagAt(l', w, p) {
      if p < |l.Bag(w)| {
        assert BagAt(l, w, p);
      }
    }
    forall x | 0 <= x < |l'.place| && l'.place[x].At? ensures InBag(l', x) {
      if x != l.Top(from) {
        assert InBag(l, x);
      }
    }
  }

  lemma MoveAllOk(l: Ledger, from: Where, to: Where)
    requires LedgerOk(l) && from != to && l.Bag(to) == []
    ensures LedgerOk(l.MoveAll(from, to)) && Moved(l, l.MoveAll(from, to), from, to)
    ensures l.MoveAll(from, to).Bag(from) == [] && l.MoveAll(from, to).Bag(to) == l.Bag(from)
  {
    var l' := l.MoveAll(from, to);
    assert forall w | w != from && w != to :: l'.Bag(w) == l.Bag(w);
    forall w, p | 0 <= p < |l'.Bag(w)| ensures BagAt(l', w, p) {
      assert BagAt(l, if w == to then from else w, p);
    }
    forall x | 0 <= x < |l'.place| && l'.place[x].At? ensures InBag(l', x) {
      assert InBag(l, x);
    }
  }

  lemma EnterOk(l: Ledger, x: nat, to: Where)
    requires LedgerOk(l) && 0 < x < |l.place| && !l.place[x].At?
    ensures LedgerOk(l.Enter(x, to)) && l.Enter(x, to).Bag(to) == l.Bag(to) + [x]
    ensures l.Enter(x, to).place == l.place[x := At(to, |l.Bag(to)|)]
    ensures forall w | w != to :: l.Enter(x, to).Bag(w) == l.Bag(w)
  {
    var l' := l.Enter(x, to);
    forall w, p | 0 <= p < |l'.Bag(w)| ensures BagAt(l', w, p) {
      if p < |l.Bag(w)| {
        assert BagAt(l, w, p);
      }
    }
    forall y | 0 <= y < |l'.place| && l'.place[y].At? ensures InBag(l', y) {
      if y != x {
        assert InBag(l, y);
      }
    }
  }

  lemma GrantOk(l: Ledger, from: Where)
    requires LedgerOk(l) && l.Bag(from) != []
    ensures LedgerOk(l.Grant(from)) && l.Grant(from).Bag(from) == l.Bag(from)[..|l.Bag(from)| - 1]
    ensures 0 < l.Top(from) < |l.place| && l.Grant(from).place == l.place[l.Top(from) := Client]
    ensures forall w | w != from :: l.Grant(from).Bag(w) == l.Bag(w)
  {
    var l' := l.Grant(from);
    assert BagAt(l, from, |l.Bag(from)| - 1);
    forall w, p | 0 <= p < |l'.Bag(w)| ensures BagAt(l', w, p) {
      assert BagAt(l, w, p);
    }
    forall y | 0 <= y < |l'.place| && l'.place[y].At? ensures InBag(l', y) {
      assert InBag(l, y);
    }
  }

  /** An index at the top of a bag is in that bag only. */
  lemma TopPlace(l: Ledger, w: Where)
    requires LedgerOk(l)
    ensures l.Top(w) == 0 <==> l.Bag(w) == []
    ensures l.Top(w) != 0 ==> l.Top(w) < |l.place| && l.place[l.Top(w)] == At(w, |l.Bag(w)| - 1)
  {
    if l.Bag(w) != [] {
      assert BagAt(l, w, |l.Bag(w)| - 1);
    }
  }

  // ------------------------------------------------------------- the invariant

  ghost predicate LinkAt(next: seq<nat>, b: seq<nat>, p: nat)
    requires p < |b|
  {
    b[p] < |next| && next[b[p]] == if p == 0 then 0 else b[p - 1]
  }

  /** Following localNext from the top visits exactly the bag, top to bottom. */
  ghost predicate Linked(next: seq<nat>, b: seq<nat>) {
    forall p | 0 <= p < |b| :: LinkAt(next, b, p)
  }

  predicate HoldsList(pc: PC) { pc.RefillRead? || pc.RefillCas? || pc.SpillLoad? || pc.SpillWrite? || pc.SpillCas? }

  predicate Chained(s: State, w: Where) {
    w.Hand? ==> w.thread < |s.threads| && HoldsList(s.threads[w.thread])
  }

  ghost predicate LinksOk(s: State) {
    forall w | Chained(s, w) :: Linked(s.localNext, s.ledger.Bag(w))
  }

  ghost predicate Shape(s: State) {
    && s.cap < ALLOCATED && |s.localNext| == |s.globalNext| == |s.ledger.place| == s.cap + 1
  }

  /** Slots are constructed in index order. */
  ghost predicate BornOk(s: State) {
    forall x | 0 <= x < |s.ledger.place| :: s.ledger.place[x].Unborn? <==> x == 0 || x > s.size
  }

  ghost predicate ClientOk(s: State)
    requires Shape(s)
  {
    forall x | 0 <= x < |s.ledger.place| && s.ledger.place[x].Client? :: s.localNext[x] == ALLOCATED
  }

  ghost predicate LocalAt(heads: seq<TaggedPtr>, l: Ledger, limit: nat, i: nat)
    requires i < |heads|
  {
    heads[i].idx == l.Top(Local(i)) && heads[i].size == |l.Bag(Local(i))| <= limit
  }

  ghost predicate LocalOk(s: State) {
    forall i | 0 <= i < |s.heads| :: LocalAt(s.heads, s.ledger, s.limit, i)
  }

  function Below(l: Ledger, k: nat): nat { if k == 0 then 0 else l.Top(Global(k - 1)) }

  ghost predicate GlobalAt(next: seq<nat>, l: Ledger, limit: nat, k: nat) {
    |l.Bag(Global(k))| == limit + 1 && l.Top(Global(k)) < |next| && next[l.Top(Global(k))] == Below(l, k)
  }

  /** The global list is a stack of full lists linked by globalNext through their heads. */
  ghost predicate GlobalOk(s: State) {
    && (forall k | 0 <= k < s.depth :: GlobalAt(s.globalNext, s.ledger, s.limit, k))
    && s.globalHead.idx == Below(s.ledger, s.depth)
  }

  predicate Possible(s: State, w: Where) {
    match w
    case Local(i) => i < |s.heads|
    case Global(k) => k < s.depth
    case Hand(t) => t < |s.threads|
  }

  ghost predicate StrayOk(s: State) {
    forall w | s.ledger.Bag(w) != [] :: Possible(s, w)
  }

  /** What a thread has in its hands. */
  ghost predicate HandOk(s: State, pc: PC, b: seq<nat>) {
    match pc
    case PopMark(idx) => b == [idx]
    case PushLoad(_, idx) => b == [idx]
    case PushWrite(_, idx, _) => b == [idx]
    case PushCas(_, idx, h) => b == [idx] && idx < |s.localNext| && s.localNext[idx] == h.idx
    case StealCas(_, idx, h) => b == [idx] && idx < |s.localNext| && s.localNext[idx] == h.idx
    case RefillRead(_, _, idx) => |b| == s.limit + 1 && Last(b) == idx
    case RefillCas(_, _, idx, next) =>
      |b| == s.limit + 1 && Last(b) == idx && idx < |s.localNext| && next == s.localNext[idx]
    case SpillLoad(idx, _) => |b| == s.limit + 1 && Last(b) == idx
    case SpillWrite(idx, _, _) => |b| == s.limit + 1 && Last(b) == idx
    case SpillCas(idx, _, gh) =>
      |b| == s.limit + 1 && Last(b) == idx && idx < |s.globalNext| && s.globalNext[idx] == gh.idx
    case _ => b == []
  }

  /** A head loaded earlier: as long as the tag stands still, nothing has changed. */
  predicate StaleOk(now: TaggedPtr, h: TaggedPtr) {
    h.tag < now.tag || h == now
  }

  /** A next field read under head h is right while h is current. */
  predicate NextOk(now: TaggedPtr, h: TaggedPtr, fields: seq<nat>, next: nat) {
    StaleOk(now, h) && (now == h ==> h.idx < |fields| && next == fields[h.idx])
  }

  predicate HeadOk(s: State, i: nat, h: TaggedPtr) {
    i < |s.heads| && StaleOk(s.heads[i], h)
  }

  ghost predicate PcOk(s: State, pc: PC) {
    match pc
    case PopLoad(i) => i < |s.heads|
    case PopRead(i, h) => HeadOk(s, i, h) && SlotExists(s, h.idx) && h.size > 0
    case PopCas(i, h, next) => i < |s.heads| && SlotExists(s, h.idx) && h.size > 0 && NextOk(s.heads[i], h, s.localNext, next)
    case GlobalLoad(i, h) => i < |s.heads| && h.idx == 0
    case GlobalRead(i, h, gh) => i < |s.heads| && h.idx == 0 && StaleOk(s.globalHead, gh) && SlotExists(s, gh.idx)
    case GlobalCas(i, h, gh, next) =>
      i < |s.heads| && h.idx == 0 && SlotExists(s, gh.idx) && NextOk(s.globalHead, gh, s.globalNext, next)
    case RefillRead(i, h, _) => i < |s.heads| && h.idx == 0
    case RefillCas(i, h, _, _) => i < |s.heads| && h.idx == 0
    case PushLoad(i, _) => i < |s.heads|
    case PushWrite(i, _, _) => i < |s.heads|
    case PushCas(i, _, h) => i < |s.heads| && h.size != s.limit
    case StealCas(i, _, h) => i < |s.heads| && h.size == s.limit
    case SpillLoad(_, after) => after.Retry? ==> after.list < |s.heads|
    case SpillWrite(_, after, _) => after.Retry? ==> after.list < |s.heads|
    case SpillCas(_, after, _) => after.Retry? ==> after.list < |s.heads|
    case _ => true
  }

  ghost predicate ThreadAt(s: State, t: nat)
    requires t < |s.threads|
  {
    PcOk(s, s.threads[t]) && HandOk(s, s.threads[t], s.ledger.Bag(Hand(t)))
  }

  ghost predicate ThreadsOk(s: State) {
    forall t | 0 <= t < |s.threads| :: ThreadAt(s, t)
  }

  ghost predicate Inv(s: State) {
    && Shape(s) && LedgerOk(s.ledger) && BornOk(s) && ClientOk(s)
    && LocalOk(s) && GlobalOk(s) && StrayOk(s) && LinksOk(s) && ThreadsOk(s)
  }

  lemma InitInv(s: State)
    requires Init(s)
    ensures Inv(s)
  {
  }

  // --------------------------------------------------------------- frame facts

  /** A step of thread t, as the others see it: heads change with their tags, and only
      fields of indices in t's hands are written. */
  ghost predicate Gentle(s: State, s': State, t: nat) {
    && Shape(s) && Shape(s') && s'.limit == s.limit && s'.cap == s.cap && s.size <= s'.size
    && |s'.heads| == |s.heads| && |s'.threads| == |s.threads|
    && (forall i | 0 <= i < |s.heads| :: StaleOk(s'.heads[i], s.heads[i]))
    && StaleOk(s'.globalHead, s.globalHead)
    && (forall u | 0 <= u < |s.threads| && u != t :: s'.threads[u] == s.threads[u])
    && (forall u | u != t :: s'.ledger.Bag(Hand(u)) == s.ledger.Bag(Hand(u)))
    && (forall x | 0 <= x <= s.cap && !Holds(s, t, x) ::
          s'.localNext[x] == s.localNext[x] && s'.globalNext[x] == s.globalNext[x])
  }

  predicate Holds(s: State, t: nat, x: nat)
  {
    x < |s.ledger.place| && s.ledger.place[x].At? && s.ledger.place[x].where == Hand(t)
  }

  lemma OtherThread(s: State, s': State, t: nat, u: nat)
    requires Inv(s) && Gentle(s, s', t) && u != t && u < |s.threads|
    ensures ThreadAt(s', u)
  {
    assert ThreadAt(s, u);
    TopPlace(s.ledger, Hand(u));
    match s.threads[u]
    case PopCas(i, h, next) => assert LocalAt(s.heads, s.ledger, s.limit, i); TopPlace(s.ledger, Local(i));
    case GlobalCas(_, _, gh, _) =>
      if s.depth > 0 {
        TopPlace(s.ledger, Global(s.depth - 1));
      }
    case PushCas(_, idx, _) => assert s.ledger.Top(Hand(u)) == idx;
    case StealCas(_, idx, _) => assert s.ledger.Top(Hand(u)) == idx;
    case _ =>
  }

  lemma OtherThreads(s: State, s': State, t: nat)
    requires Inv(s) && Gentle(s, s', t) && t < |s.threads|
    requires ThreadAt(s', t)
    ensures ThreadsOk(s')
  {
    forall u | 0 <= u < |s'.threads| ensures ThreadAt(s', u) {
      if u != t {
        OtherThread(s, s', t, u);
      }
    }
  }

  /** Writing the localNext of an index outside a bag leaves the bag linked. */
  lemma LinkedKept(l: Ledger, w: Where, next: seq<nat>, next': seq<nat>)
    requires LedgerOk(l) && Linked(next, l.Bag(w)) && |next'| == |next| == |l.place|
    requires forall x | 0 <= x < |next| && l.place[x].At? && l.place[x].where == w :: next'[x] == next[x]
    ensures Linked(next', l.Bag(w))
  {
    var b := l.Bag(w);
    forall p | 0 <= p < |b| ensures LinkAt(next', b, p) {
      assert LinkAt(next, b, p) && BagAt(l, w, p);
    }
  }

  /** A step that changes only its own thread's position. */
  lemma LocalStep(s: State, s': State, t: nat, pc: PC)
    requires Inv(s) && t < |s.threads| && s' == Goto(s, t, pc)
    requires PcOk(s, pc) && HandOk(s, pc, s.ledger.Bag(Hand(t)))
    requires HoldsList(pc) ==> HoldsList(s.threads[t])
    ensures Inv(s')
  {
    OtherThreads(s, s', t);
  }

  /** The head of a list a thread has loaded. */
  lemma LoadedHead(s: State, i: nat)
    requires Inv(s) && i < |s.heads|
    ensures s.heads[i].idx != 0 ==> SlotExists(s, s.heads[i].idx) && s.heads[i].size > 0
    ensures s.heads[i].idx == 0 ==> s.ledger.Bag(Local(i)) == []
  {
    assert LocalAt(s.heads, s.ledger, s.limit, i);
    TopPlace(s.ledger, Local(i));
  }

  lemma LoadedGlobal(s: State)
    requires Inv(s)
    ensures s.globalHead.idx != 0 ==> SlotExists(s, s.globalHead.idx) && s.depth > 0
    ensures s.globalHead.idx == 0 ==> s.depth == 0
  {
    if s.depth > 0 {
      assert GlobalAt(s.globalNext, s.ledger, s.limit, s.depth - 1);
      TopPlace(s.ledger, Global(s.depth - 1));
    }
  }

  // ------------------------------------------------------------- the easy steps

  lemma PopLoadStep(s: State, s': State, t: nat)
    requires Inv(s) && t < |s.threads| && StepPopLoad(s, s', t)
    ensures Inv(s')
  {
    assert ThreadAt(s, t);
    LoadedHead(s, s.threads[t].list);
    LocalStep(s, s', t, s'.threads[t]);
  }

  lemma GlobalLoadStep(s: State, s': State, t: nat)
    requires Inv(s) && t < |s.threads| && StepGlobalLoad(s, s', t)
    ensures Inv(s')
  {
    assert ThreadAt(s, t);
    LoadedGlobal(s);
    LocalStep(s, s', t, s'.threads[t]);
  }

  /** Reads of next fields and the remaining loads. */
  lemma ReadStep(s: State, s': State, t: nat)
    requires Inv(s) && t < |s.threads|
    requires || StepPopRead(s, s', t) || StepRefillRead(s, s', t) || StepGlobalRead(s, s', t)
             || StepPushLoad(s, s', t) || StepSpillLoad(s, s', t) || StepSizeLoad(s, s', t)
             || (exists list: nat :: StepAlloc(s, s', t, list))
    ensures Inv(s')
  {
    assert ThreadAt(s, t);
    LocalStep(s, s', t, s'.threads[t]);
  }

  /** A compare-and-swap that fails. */
  lemma FailStep(s: State, s': State, t: nat, pc: PC)
    requires Inv(s) && t < |s.threads| && s' == Goto(s, t, pc)
    requires match s.threads[t]
             case PopCas(i, _, _) => pc == PopLoad(i)
             case RefillCas(i, h, idx, _) => pc == SpillLoad(idx, Retry(i))
             case GlobalCas(i, h, _, _) => pc == GlobalLoad(i, h)
             case PushCas(i, idx, _) => i < |s.heads| && pc == PushWrite(i, idx, s.heads[i])
             case StealCas(i, idx, _) => i < |s.heads| && pc == PushWrite(i, idx, s.heads[i])
             case SpillCas(idx, after, _) => pc == SpillLoad(idx, after)
             case _ => false
    ensures Inv(s')
  {
    assert ThreadAt(s, t);
    LocalStep(s, s', t, pc);
  }

  // --------------------------------------------------------- writing next fields

  lemma PushWriteStep(s: State, s': State, t: nat)
    requires Inv(s) && t < |s.threads| && StepPushWrite(s, s', t)
    ensures Inv(s')
  {
    assert ThreadAt(s, t);
    var idx := s.threads[t].idx;
    assert s.ledger.Top(Hand(t)) == idx;
    TopPlace(s.ledger, Hand(t));
    OtherThreads(s, s', t);
    LinksKept(s, s', t);
  }

  lemma SpillWriteStep(s: State, s': State, t: nat)
    requires Inv(s) && t < |s.threads| && StepSpillWrite(s, s', t)
    ensures Inv(s')
  {
    assert ThreadAt(s, t);
    TopPlace(s.ledger, Hand(t));
    OtherThreads(s, s', t);
    forall k | 0 <= k < s.depth ensures GlobalAt(s'.globalNext, s'.ledger, s'.limit, k) {
      assert GlobalAt(s.globalNext, s.ledger, s.limit, k);
      TopPlace(s.ledger, Global(k));
    }
  }

  /** Only fields of indices in t's hands were written, and t holds no list. */
  lemma LinksKept(s: State, s': State, t: nat)
    requires Inv(s) && Gentle(s, s', t) && t < |s.threads| && s'.ledger == s.ledger
    requires !HoldsList(s'.threads[t])
    ensures LinksOk(s')
  {
    forall w | Chained(s', w) ensures Linked(s'.localNext, s'.ledger.Bag(w)) {
      assert Chained(s, w);
      LinkedKept(s.ledger, w, s.localNext, s'.localNext);
    }
  }

  /** The store of uint32_t(-1), while the index is still in hand. */
  lemma MarkStep(s: State, s': State, t: nat, idx: nat)
    requires Inv(s) && t < |s.threads| && s.threads[t] == PopMark(idx)
    requires idx < |s.localNext| && s' == s.(localNext := s.localNext[idx := ALLOCATED])
    ensures Inv(s')
  {
    assert ThreadAt(s, t);
    assert s.ledger.Top(Hand(t)) == idx;
    TopPlace(s.ledger, Hand(t));
    OtherThreads(s, s', t);
    LinksKept(s, s', t);
  }

  lemma PopMarkStep(s: State, s': State, t: nat)
    requires Inv(s) && t < |s.threads| && StepPopMark(s, s', t)
    ensures Inv(s')
  {
    assert ThreadAt(s, t);
    var idx := s.threads[t].idx;
    var m := s.(localNext := s.localNext[idx := ALLOCATED]);
    MarkStep(s, m, t, idx);
    GrantOk(s.ledger, Hand(t));
    assert s.ledger.Top(Hand(t)) == idx;
    TopPlace(s.ledger, Hand(t));
    OtherThreads(m, s', t);
    BagsKept(m, s', t);
  }

  /** Nothing but t's hand and the places of indices changed. */
  lemma BagsKept(s: State, s': State, t: nat)
    requires Inv(s) && t < |s.threads| == |s'.threads| && !HoldsList(s'.threads[t])
    requires forall w | w != Hand(t) :: s'.ledger.Bag(w) == s.ledger.Bag(w)
    requires forall u | 0 <= u < |s.threads| && u != t :: s'.threads[u] == s.threads[u]
    requires s'.limit == s.limit && s'.heads == s.heads && s'.globalHead == s.globalHead && s'.depth == s.depth
    requires s'.localNext == s.localNext && s'.globalNext == s.globalNext
    ensures LocalOk(s') && GlobalOk(s') && StrayOk(s') && LinksOk(s')
  {
    forall i | 0 <= i < |s.heads| ensures LocalAt(s'.heads, s'.ledger, s'.limit, i) {
      assert LocalAt(s.heads, s.ledger, s.limit, i);
    }
    forall k | 0 <= k < s.depth ensures GlobalAt(s'.globalNext, s'.ledger, s'.limit, k) {
      assert GlobalAt(s.globalNext, s.ledger, s.limit, k);
    }
    forall w | Chained(s', w) ensures Linked(s'.localNext, s'.ledger.Bag(w)) {
      assert Chained(s, w);
    }
  }

  /** A client's or a new index is taken in hand. */
  lemma EnterStep(s: State, s': State, t: nat, x: nat, pc: PC)
    requires Inv(s) && t < |s.threads| && s.ledger.Bag(Hand(t)) == [] && !HoldsList(s.threads[t])
    requires s.size <= s'.size && 0 < x <= s.cap && x <= s'.size
    requires s' == s.(size := s'.size, ledger := s.ledger.Enter(x, Hand(t)), threads := s.threads[t := pc])
    requires if s.ledger.place[x].Client?
             then s'.size == s.size && pc.PushLoad? && pc.idx == x && pc.list < |s.heads|
             else s.ledger.place[x].Unborn? && x == s'.size == s.size + 1 && pc == PopMark(x)
    ensures Inv(s')
  {
    EnterOk(s.ledger, x, Hand(t));
    OtherThreads(s, s', t);
    BagsKept(s, s', t);
  }

  lemma StartStep(s: State, s': State, t: nat)
    requires Inv(s) && t < |s.threads| && s.threads[t].Idle? && StepStart(s, s', t)
    ensures Inv(s')
  {
    assert ThreadAt(s, t);
    if list: nat :| StepAlloc(s, s', t, list) {
      ReadStep(s, s', t);
    } else {
      var list: nat, idx: nat :| StepRecycle(s, s', t, list, idx);
      EnterStep(s, s', t, idx, PushLoad(list, idx));
    }
  }

  lemma SizeIncrStep(s: State, s': State, t: nat)
    requires Inv(s) && t < |s.threads| && StepSizeIncr(s, s', t)
    ensures Inv(s')
  {
    assert ThreadAt(s, t);
    if s.size + 1 <= s.cap {
      EnterStep(s, s', t, s.size + 1, PopMark(s.size + 1));
    } else {
      OtherThreads(s, s', t);
    }
  }

  // ------------------------------------------------------------ moving one index

  lemma PopMoves(l: Ledger, t: nat, i: nat)
    requires LedgerOk(l) && l.Bag(Local(i)) != [] && l.Bag(Hand(t)) == []
    ensures var l', b := l.MoveTop(Local(i), Hand(t)), l.Bag(Local(i));
            && LedgerOk(l') && Moved(l, l', Local(i), Hand(t))
            && l'.Bag(Local(i)) == b[..|b| - 1] && l'.Bag(Hand(t)) == [Last(b)]
            && l'.Top(Local(i)) == if |b| == 1 then 0 else b[|b| - 2]
  {
    MoveTopOk(l, Local(i), Hand(t));
  }

  lemma PopCasStep(s: State, s': State, t: nat)
    requires Inv(s) && t < |s.threads| && StepPopCas(s, s', t)
    ensures Inv(s')
  {
    assert ThreadAt(s, t);
    var pc := s.threads[t];
    if s.heads[pc.list] == pc.h {
      assert LocalAt(s.heads, s.ledger, s.limit, pc.list);
      var b := s.ledger.Bag(Local(pc.list));
      assert Chained(s, Local(pc.list)) && LinkAt(s.localNext, b, |b| - 1);
      LinkedPrefix(s.localNext, b);
      PopMoves(s.ledger, t, pc.list);
      OneListMoved(s, s', t, pc.list);
      LinksMoved(s, s', t, pc.list);
      OtherThreads(s, s', t);
    } else {
      FailStep(s, s', t, PopLoad(pc.list));
    }
  }

  lemma LinkedPrefix(next: seq<nat>, b: seq<nat>)
    requires Linked(next, b) && b != []
    ensures Linked(next, b[..|b| - 1])
  {
    var c := b[..|b| - 1];
    forall p | 0 <= p < |c| ensures LinkAt(next, c, p) {
      assert LinkAt(next, b, p);
    }
  }

  lemma LinkedExtend(next: seq<nat>, b: seq<nat>, x: nat)
    requires Linked(next, b) && x < |next| && next[x] == Last(b)
    ensures Linked(next, b + [x])
  {
    forall p | 0 <= p < |b| + 1 ensures LinkAt(next, b + [x], p) {
      if p < |b| {
        assert LinkAt(next, b, p);
      }
    }
  }

  /** Local list i and t's hand changed, and the list's head follows. */
  lemma OneListMoved(s: State, s': State, t: nat, i: nat)
    requires Inv(s) && t < |s.threads| == |s'.threads| && i < |s.heads| == |s'.heads|
    requires Moved(s.ledger, s'.ledger, Local(i), Hand(t)) && s'.limit == s.limit
    requires forall j | 0 <= j < |s.heads| && j != i :: s'.heads[j] == s.heads[j]
    requires s'.globalHead == s.globalHead && s'.globalNext == s.globalNext && s'.depth == s.depth
    requires LocalAt(s'.heads, s'.ledger, s'.limit, i)
    ensures LocalOk(s') && GlobalOk(s') && StrayOk(s')
  {
    forall j | 0 <= j < |s'.heads| ensures LocalAt(s'.heads, s'.ledger, s'.limit, j) {
      assert j != i ==> LocalAt(s.heads, s.ledger, s.limit, j);
    }
    forall k | 0 <= k < s.depth ensures GlobalAt(s'.globalNext, s'.ledger, s'.limit, k) {
      assert GlobalAt(s.globalNext, s.ledger, s.limit, k);
    }
  }

  lemma LinksMoved(s: State, s': State, t: nat, i: nat)
    requires Inv(s) && t < |s.threads| == |s'.threads| && s'.localNext == s.localNext
    requires Moved(s.ledger, s'.ledger, Local(i), Hand(t))
    requires forall u | 0 <= u < |s.threads| && u != t :: s'.threads[u] == s.threads[u]
    requires Linked(s.localNext, s'.ledger.Bag(Local(i)))
    requires HoldsList(s'.threads[t]) ==> Linked(s.localNext, s'.ledger.Bag(Hand(t)))
    ensures LinksOk(s')
  {
    forall w | Chained(s', w) ensures Linked(s'.localNext, s'.ledger.Bag(w)) {
      if w != Local(i) && w != Hand(t) {
        assert Chained(s, w);
      }
    }
  }

  lemma PushCasStep(s: State, s': State, t: nat)
    requires Inv(s) && t < |s.threads| && StepPushCas(s, s', t)
    ensures Inv(s')
  {
    assert ThreadAt(s, t);
    var pc := s.threads[t];
    if s.heads[pc.list] == pc.h {
      assert LocalAt(s.heads, s.ledger, s.limit, pc.list);
      assert Chained(s, Local(pc.list));
      LinkedExtend(s.localNext, s.ledger.Bag(Local(pc.list)), pc.idx);
      MoveTopOk(s.ledger, Hand(t), Local(pc.list));
      OneListMoved(s, s', t, pc.list);
      LinksMoved(s, s', t, pc.list);
      OtherThreads(s, s', t);
    } else {
      FailStep(s, s', t, PushWrite(pc.list, pc.idx, s.heads[pc.list]));
    }
  }

  // ------------------------------------------------------------ moving whole lists

  lemma StealCasStep(s: State, s': State, t: nat)
    requires Inv(s) && t < |s.threads| && StepStealCas(s, s', t)
    ensures Inv(s')
  {
    assert ThreadAt(s, t);
    var pc := s.threads[t];
    if s.heads[pc.list] == pc.h {
      assert LocalAt(s.heads, s.ledger, s.limit, pc.list);
      assert Chained(s, Local(pc.list));
      LinkedExtend(s.localNext, s.ledger.Bag(Local(pc.list)), pc.idx);
      MoveTopOk(s.ledger, Hand(t), Local(pc.list));
      MoveAllOk(s.ledger.MoveTop(Hand(t), Local(pc.list)), Local(pc.list), Hand(t));
      OneListMoved(s, s', t, pc.list);
      LinksMoved(s, s', t, pc.list);
      OtherThreads(s, s', t);
    } else {
      FailStep(s, s', t, PushWrite(pc.list, pc.idx, s.heads[pc.list]));
    }
  }

  lemma RefillMoves(l: Ledger, t: nat, i: nat)
    requires LedgerOk(l) && l.Bag(Hand(t)) != [] && l.Bag(Local(i)) == []
    ensures var l', b := l.MoveAll(Hand(t), Local(i)).MoveTop(Local(i), Hand(t)), l.Bag(Hand(t));
            && LedgerOk(l') && Moved(l, l', Local(i), Hand(t))
            && l'.Bag(Local(i)) == b[..|b| - 1] && l'.Bag(Hand(t)) == [l.Top(Hand(t))]
  {
    MoveAllOk(l, Hand(t), Local(i));
    MoveTopOk(l.MoveAll(Hand(t), Local(i)), Local(i), Hand(t));
  }

  lemma RefillCasStep(s: State, s': State, t: nat)
    requires Inv(s) && t < |s.threads| && StepRefillCas(s, s', t)
    ensures Inv(s')
  {
    assert ThreadAt(s, t);
    var pc := s.threads[t];
    if s.heads[pc.list] == pc.h {
      RefillInstalls(s, s', t);
    } else {
      FailStep(s, s', t, SpillLoad(pc.idx, Retry(pc.list)));
    }
  }

  lemma RefillInstalls(s: State, s': State, t: nat)
    requires Inv(s) && t < |s.threads| && StepRefillCas(s, s', t) && s.heads[s.threads[t].list] == s.threads[t].h
    ensures Inv(s')
  {
    assert ThreadAt(s, t);
    var i, b := s.threads[t].list, s.ledger.Bag(Hand(t));
    LoadedHead(s, i);
    assert Chained(s, Hand(t)) && LinkAt(s.localNext, b, |b| - 1);
    LinkedPrefix(s.localNext, b);
    RefillMoves(s.ledger, t, i);
    OneListMoved(s, s', t, i);
    LinksMoved(s, s', t, i);
    OtherThreads(s, s', t);
  }

  lemma GlobalCasStep(s: State, s': State, t: nat)
    requires Inv(s) && t < |s.threads| && StepGlobalCas(s, s', t)
    ensures Inv(s')
  {
    assert ThreadAt(s, t);
    var pc := s.threads[t];
    if s.globalHead == pc.gh {
      var top := s.depth - 1;
      assert GlobalAt(s.globalNext, s.ledger, s.limit, top);
      MoveAllOk(s.ledger, Global(top), Hand(t));
      GlobalMoved(s, s', t, top);
      assert Chained(s, Global(top));
      OtherThreads(s, s', t);
    } else {
      FailStep(s, s', t, GlobalLoad(pc.list, pc.h));
    }
  }

  /** A whole list moved between t's hand and level k of the global list. */
  lemma GlobalMoved(s: State, s': State, t: nat, k: nat)
    requires Inv(s) && t < |s.threads| == |s'.threads| && s'.heads == s.heads && s'.limit == s.limit
    requires Moved(s.ledger, s'.ledger, Global(k), Hand(t))
    requires k <= s.depth && k <= s'.depth <= k + 1 && (s'.depth == k ==> s'.ledger.Bag(Global(k)) == [] && s.depth == k + 1)
    requires s'.depth == k + 1 ==> s.depth == k && GlobalAt(s'.globalNext, s'.ledger, s'.limit, k)
    requires s'.globalHead.idx == Below(s'.ledger, s'.depth) && s'.globalNext == s.globalNext && s'.localNext == s.localNext
    requires forall u | 0 <= u < |s.threads| && u != t :: s'.threads[u] == s.threads[u]
    requires s'.depth == k + 1 ==> Linked(s'.localNext, s'.ledger.Bag(Global(k)))
    requires HoldsList(s'.threads[t]) ==> Linked(s'.localNext, s'.ledger.Bag(Hand(t)))
    ensures LocalOk(s') && GlobalOk(s') && StrayOk(s') && LinksOk(s')
  {
    forall j | 0 <= j < |s'.heads| ensures LocalAt(s'.heads, s'.ledger, s'.limit, j) {
      assert LocalAt(s.heads, s.ledger, s.limit, j);
    }
    forall j | 0 <= j < s'.depth ensures GlobalAt(s'.globalNext, s'.ledger, s'.limit, j) {
      if j < k {
        assert GlobalAt(s.globalNext, s.ledger, s.limit, j);
      }
    }
    forall w | Chained(s', w) ensures Linked(s'.localNext, s'.ledger.Bag(w)) {
      if w != Global(k) && w != Hand(t) {
        assert Chained(s, w);
      }
    }
  }

  lemma SpillCasStep(s: State, s': State, t: nat)
    requires Inv(s) && t < |s.threads| && StepSpillCas(s, s', t)
    ensures Inv(s')
  {
    assert ThreadAt(s, t);
    var pc := s.threads[t];
    if s.globalHead == pc.gh {
      assert s.ledger.Bag(Global(s.depth)) == [] by { assert !Possible(s, Global(s.depth)); }
      TopPlace(s.ledger, Hand(t));
      MoveAllOk(s.ledger, Hand(t), Global(s.depth));
      assert Chained(s, Hand(t));
      GlobalMoved(s, s', t, s.depth);
      OtherThreads(s, s', t);
    } else {
      FailStep(s, s', t, SpillLoad(pc.idx, pc.after));
    }
  }

  // ---------------------------------------------------------------- whole runs

  lemma StepInv(s: State, s': State, t: nat)
    requires Inv(s) && t < |s.threads| && Step(s, s', t)
    ensures Inv(s')
  {
    match s.threads[t]
    case Idle => StartStep(s, s', t);
    case PopLoad(_) => PopLoadStep(s, s', t);
    case PopRead(_, _) => ReadStep(s, s', t);
    case PopCas(_, _, _) => PopCasStep(s, s', t);
    case PopMark(_) => PopMarkStep(s, s', t);
    case RefillRead(_, _, _) => ReadStep(s, s', t);
    case RefillCas(_, _, _, _) => RefillCasStep(s, s', t);
    case SizeLoad => ReadStep(s, s', t);
    case SizeIncr => SizeIncrStep(s, s', t);
    case GlobalLoad(_, _) => GlobalLoadStep(s, s', t);
    case GlobalRead(_, _, _) => ReadStep(s, s', t);
    case GlobalCas(_, _, _, _) => GlobalCasStep(s, s', t);
    case PushLoad(_, _) => ReadStep(s, s', t);
    case PushWrite(_, _, _) => PushWriteStep(s, s', t);
    case PushCas(_, _, _) => PushCasStep(s, s', t);
    case StealCas(_, _, _) => StealCasStep(s, s', t);
    case SpillLoad(_, _) => ReadStep(s, s', t);
    case SpillWrite(_, _, _) => SpillWriteStep(s, s', t);
    case SpillCas(_, _, _) => SpillCasStep(s, s', t);
  }

  lemma {:induction false} RunInv(run: seq<State>, k: nat)
    requires IsRun(run) && k < |run|
    ensures Inv(run[k])
    decreases k
  {
    if k == 0 {
      InitInv(run[0]);
    } else {
      RunInv(run, k - 1);
      assert NextAt(run, k - 1);
      var t: nat :| StepBy(run, k - 1, t);
      StepInv(run[k - 1], run[k], t);
    }
  }

  /** The assertions of the code a thread is about to evaluate. */
  predicate AssertsHold(s: State, pc: PC) {
    match pc
    case PopRead(_, h) => SlotExists(s, h.idx)
    case PopCas(_, h, _) => h.size > 0
    case PopMark(idx) => SlotExists(s, idx)
    case RefillRead(_, _, idx) => SlotExists(s, idx)
    case GlobalRead(_, _, gh) => SlotExists(s, gh.idx)
    case PushWrite(_, idx, _) => SlotExists(s, idx)
    case PushCas(list, _, h) => list < |s.heads| && (s.heads[list] == h ==> h.size < s.limit)
    case SpillWrite(idx, _, _) => SlotExists(s, idx)
    case _ => true
  }

  /** No slot access is out of range and no size field over- or underflows. */
  lemma NoAssertionFails(run: seq<State>, k: nat, t: nat)
    requires IsRun(run) && k < |run| && t < |run[k].threads|
    ensures AssertsHold(run[k], run[k].threads[t])
  {
    RunInv(run, k);
    var s := run[k];
    assert ThreadAt(s, t);
    TopPlace(s.ledger, Hand(t));
    if s.threads[t].PushCas? {
      assert LocalAt(s.heads, s.ledger, s.limit, s.threads[t].list);
    }
  }

  ghost predicate InSomeBag(l: Ledger, x: nat) {
    exists w, p :: 0 <= p < |l.Bag(w)| && l.Bag(w)[p] == x
  }

  /** Every constructed index is either the client's or in one bag, once; the others are nowhere. */
  lemma OwnershipIsPartition(run: seq<State>, k: nat)
    requires IsRun(run) && k < |run|
    ensures var l := run[k].ledger;
            forall w, p, v, q | 0 <= p < |l.Bag(w)| && 0 <= q < |l.Bag(v)| && l.Bag(w)[p] == l.Bag(v)[q] :: w == v && p == q
    ensures var l := run[k].ledger;
            forall x: nat | 0 < x <= run[k].cap ::
              if x <= run[k].size then InSomeBag(l, x) <==> x !in Clients(run[k])
              else !InSomeBag(l, x) && x !in Clients(run[k])
    ensures forall w | run[k].ledger.Bag(w) != [] :: Possible(run[k], w)
  {
    RunInv(run, k);
    var l := run[k].ledger;
    forall w, p, v, q | 0 <= p < |l.Bag(w)| && 0 <= q < |l.Bag(v)| && l.Bag(w)[p] == l.Bag(v)[q] ensures w == v && p == q {
      assert BagAt(l, w, p) && BagAt(l, v, q);
    }
    forall x: nat | 0 < x <= run[k].cap ensures InSomeBag(l, x) <==> l.place[x].At? {
      if l.place[x].At? {
        assert InBag(l, x);
      }
      if w, p :| 0 <= p < |l.Bag(w)| && l.Bag(w)[p] == x {
        assert BagAt(l, w, p);
      }
    }
  }

  /** What the client owns. */
  ghost function Clients(s: State): set<nat> {
    set x | 0 <= x < |s.ledger.place| && s.ledger.place[x].Client?
  }

  /** Following next fields from x visits b from its top and then ends. */
  ghost predicate ChainFrom(next: seq<nat>, x: nat, b: seq<nat>)
    decreases |b|
  {
    if |b| == 0 then x == 0
    else x == b[|b| - 1] && x < |next| && ChainFrom(next, next[x], b[..|b| - 1])
  }

  lemma {:induction false} LinkedChain(next: seq<nat>, b: seq<nat>)
    requires Linked(next, b)
    ensures ChainFrom(next, Last(b), b)
    decreases |b|
  {
    if b != [] {
      assert LinkAt(next, b, |b| - 1);
      LinkedPrefix(next, b);
      LinkedChain(next, b[..|b| - 1]);
    }
  }

  /** A local head's chain is its bag and its size field the chain's length. */
  lemma LocalListIsSound(run: seq<State>, k: nat, i: nat)
    requires IsRun(run) && k < |run| && i < |run[k].heads|
    ensures var s := run[k];
            && ChainFrom(s.localNext, s.heads[i].idx, s.ledger.Bag(Local(i)))
            && s.heads[i].size == |s.ledger.Bag(Local(i))| <= s.limit
  {
    RunInv(run, k);
    var s := run[k];
    assert LocalAt(s.heads, s.ledger, s.limit, i) && Chained(s, Local(i));
    LinkedChain(s.localNext, s.ledger.Bag(Local(i)));
  }

  /** The heads of the first n global lists, bottom first. */
  ghost function Heads(l: Ledger, n: nat): seq<nat> {
    seq(n, k requires k >= 0 => l.Top(Global(k)))
  }

  /** globalNext links the heads of the global lists; each list has limit + 1 nodes. */
  lemma GlobalListIsSound(run: seq<State>, k: nat)
    requires IsRun(run) && k < |run|
    ensures var s := run[k];
            ChainFrom(s.globalNext, s.globalHead.idx, Heads(s.ledger, s.depth))
    ensures var s := run[k];
            forall j | 0 <= j < s.depth ::
              && |s.ledger.Bag(Global(j))| == s.limit + 1
              && ChainFrom(s.localNext, s.ledger.Top(Global(j)), s.ledger.Bag(Global(j)))
  {
    RunInv(run, k);
    var s := run[k];
    var hs := Heads(s.ledger, s.depth);
    forall p | 0 <= p < |hs| ensures LinkAt(s.globalNext, hs, p) {
      assert GlobalAt(s.globalNext, s.ledger, s.limit, p);
    }
    LinkedChain(s.globalNext, hs);
    forall j | 0 <= j < s.depth
      ensures |s.ledger.Bag(Global(j))| == s.limit + 1
      ensures ChainFrom(s.localNext, s.ledger.Top(Global(j)), s.ledger.Bag(Global(j)))
    {
      assert GlobalAt(s.globalNext, s.ledger, s.limit, j) && Chained(s, Global(j));
      LinkedChain(s.localNext, s.ledger.Bag(Global(j)));
    }
  }

  /** isAllocated: true of everything the client owns, false of everything on a list. */
  lemma IsAllocatedIsExact(run: seq<State>, k: nat, x: nat)
    requires IsRun(run) && k < |run| && SlotExists(run[k], x)
    ensures x in Clients(run[k]) ==> run[k].localNext[x] == ALLOCATED
    ensures forall w, p | 0 <= p < |run[k].ledger.Bag(w)| && run[k].ledger.Bag(w)[p] == x && !w.Hand? ::
              run[k].localNext[x] != ALLOCATED
  {
    RunInv(run, k);
    var s := run[k];
    forall w, p | 0 <= p < |s.ledger.Bag(w)| && s.ledger.Bag(w)[p] == x && !w.Hand? ensures s.localNext[x] != ALLOCATED {
      assert Chained(s, w) && LinkAt(s.localNext, s.ledger.Bag(w), p);
      if p > 0 {
        assert BagAt(s.ledger, w, p - 1);
      }
    }
  }

  // ------------------------------------------------------------ the allocator

  /** A set allocator: grants an index nobody owns, takes back one that is owned. */
  ghost predicate SetAllocatorNext(a: set<nat>, a': set<nat>, cap: nat) {
    || a' == a
    || (exists x: nat :: Granted(a, a', x) && 0 < x <= cap)
    || (exists x: nat :: Granted(a', a, x) && 0 < x <= cap)
  }

  ghost predicate Granted(a: set<nat>, a': set<nat>, x: nat) {
    x !in a && a' == a + {x}
  }

  lemma {:induction false} RefinesSetAllocator(run: seq<State>, k: nat)
    requires IsRun(run) && k + 1 < |run|
    ensures Clients(run[0]) == {}
    ensures SetAllocatorNext(Clients(run[k]), Clients(run[k + 1]), run[k].cap)
  {
    RunInv(run, k);
    assert NextAt(run, k);
    var t: nat :| StepBy(run, k, t);
    ClientsStep(run[k], run[k + 1], t);
  }

  lemma ClientsStep(s: State, s': State, t: nat)
    requires Inv(s) && t < |s.threads| && Step(s, s', t)
    ensures SetAllocatorNext(Clients(s), Clients(s'), s.cap)
  {
    assert ThreadAt(s, t);
    match s.threads[t]
    case Idle =>
      if list: nat, idx: nat :| StepRecycle(s, s', t, list, idx) {
        assert Granted(Clients(s'), Clients(s), idx);
      }
    case PopMark(idx) =>
      GrantOk(s.ledger, Hand(t));
      TopPlace(s.ledger, Hand(t));
      assert Granted(Clients(s), Clients(s'), idx);
    case SizeIncr =>
      if s.size + 1 <= s.cap {
        EnterOk(s.ledger, s.size + 1, Hand(t));
      }
    case _ => MoveStep(s, s', t);
  }

  /** The steps that move indices between lists and hands leave the client's alone. */
  lemma MoveStep(s: State, s': State, t: nat)
    requires Inv(s) && t < |s.threads| && Step(s, s', t)
    requires !s.threads[t].Idle? && !s.threads[t].PopMark? && !s.threads[t].SizeIncr?
    ensures Clients(s') == Clients(s)
  {
    assert ThreadAt(s, t);
    var l := s.ledger;
    match s.threads[t]
    case PopCas(i, h, _) =>
      if s.heads[i] == h {
        assert LocalAt(s.heads, l, s.limit, i);
        MoveTopOk(l, Local(i), Hand(t));
      }
    case PushCas(i, _, _) => MoveTopOk(l, Hand(t), Local(i));
    case StealCas(i, _, _) => StealKeepsClients(l, t, i);
    case RefillCas(i, h, _, _) =>
      if s.heads[i] == h {
        LoadedHead(s, i);
        RefillKeepsClients(l, t, i);
      }
    case GlobalCas(_, _, gh, _) =>
      if s.globalHead == gh {
        MoveAllOk(l, Global(s.depth - 1), Hand(t));
      }
    case SpillCas(_, _, _) =>
      assert !Possible(s, Global(s.depth));
      MoveAllOk(l, Hand(t), Global(s.depth));
    case _ =>
  }

  ghost predicate SameClients(l: Ledger, l': Ledger) {
    |l'.place| == |l.place| && forall x | 0 <= x < |l.place| :: l'.place[x].Client? <==> l.place[x].Client?
  }

  lemma StealKeepsClients(l: Ledger, t: nat, i: nat)
    requires LedgerOk(l) && l.Bag(Hand(t)) != [] && |l.Bag(Hand(t))| == 1
    ensures SameClients(l, l.MoveTop(Hand(t), Local(i)).MoveAll(Local(i), Hand(t)))
  {
    MoveTopOk(l, Hand(t), Local(i));
    MoveAllOk(l.MoveTop(Hand(t), Local(i)), Local(i), Hand(t));
  }

  lemma RefillKeepsClients(l: Ledger, t: nat, i: nat)
    requires LedgerOk(l) && l.Bag(Hand(t)) != [] && l.Bag(Local(i)) == []
    ensures SameClients(l, l.MoveAll(Hand(t), Local(i)).MoveTop(Local(i), Hand(t)))
  {
    MoveAllOk(l, Hand(t), Local(i));
    MoveTopOk(l.MoveAll(Hand(t), Local(i)), Local(i), Hand(t));
  }

  // ------------------------------------------------------------------ capacity

  /** The part of the free indices that local lists below m hold. */
  ghost function InLists(l: Ledger, m: nat): set<nat> {
    set x | 0 <= x < |l.place| && l.place[x].At? && l.place[x].where.Local? && l.place[x].where.list < m
  }

  /** Indices in the hands of threads inside a call. */
  ghost function InHands(l: Ledger): set<nat> {
    set x | 0 <= x < |l.place| && l.place[x].At? && l.place[x].where.Hand?
  }

  ghost function Elements(b: seq<nat>): (r: set<nat>)
    ensures |r| <= |b|
  {
    if b == [] then {} else {b[0]} + Elements(b[1..])
  }

  lemma {:induction false} InElements(b: seq<nat>, p: nat)
    requires p < |b|
    ensures b[p] in Elements(b)
  {
    if p > 0 {
      InElements(b[1..], p - 1);
    }
  }

  lemma OneMoreList(s: State, m: nat)
    requires Inv(s) && m < |s.heads|
    ensures |InLists(s.ledger, m + 1)| <= |InLists(s.ledger, m)| + |s.ledger.Bag(Local(m))|
  {
    var l, b := s.ledger, s.ledger.Bag(Local(m));
    forall x | x in InLists(l, m + 1) ensures x in InLists(l, m) + Elements(b) {
      assert InBag(l, x);
      if l.place[x].where.list == m {
        InElements(b, l.place[x].pos);
      }
    }
    SmallerSet(InLists(l, m + 1), InLists(l, m) + Elements(b));
  }

  /** Local lists hold at most limit indices each, and list `empty` none. */
  lemma {:induction false} ListsAreBounded(s: State, m: nat, empty: nat)
    requires Inv(s) && m <= |s.heads| && s.ledger.Bag(Local(empty)) == []
    ensures |InLists(s.ledger, m)| <= (if empty < m then m - 1 else m) * s.limit
  {
    if m > 0 {
      ListsAreBounded(s, m - 1, empty);
      OneMoreList(s, m - 1);
      assert LocalAt(s.heads, s.ledger, s.limit, m - 1);
      var c := if empty < m - 1 then m - 2 else m - 1;
      assert (c + 1) * s.limit == c * s.limit + s.limit;
    }
  }

  lemma SmallerSet(a: set<nat>, b: set<nat>)
    requires a <= b
    ensures |a| <= |b|
  {
    assert b == a + (b - a);
  }

  ghost function UpTo(n: nat): (r: set<nat>)
    ensures |r| == n && forall x :: x in r <==> 0 < x <= n
  {
    if n == 0 then {} else {n} + UpTo(n - 1)
  }

  /** All slots constructed, one local list and the global list empty: what remains free is
      bounded by the other local lists. */
  lemma ExhaustedCount(s: State, list: nat)
    requires Inv(s) && list < |s.heads| && s.heads[list].idx == 0 && s.globalHead.idx == 0 && s.size >= s.cap
    ensures |Clients(s)| + |InHands(s.ledger)| >= CapacityForMaxIndex(s.cap, |s.heads|, s.limit)
  {
    LoadedHead(s, list);
    LoadedGlobal(s);
    var l, n := s.ledger, |s.heads|;
    forall x | x in UpTo(s.cap) ensures x in Clients(s) + InHands(l) + InLists(l, n) {
      if l.place[x].At? {
        assert InBag(l, x);
        assert Possible(s, l.place[x].where);
      }
    }
    SmallerSet(UpTo(s.cap), Clients(s) + InHands(l) + InLists(l, n));
    ListsAreBounded(s, n, list);
  }

  /** Where an allocIndex call on `list` can be while nobody else moves. */
  predicate Solo(s: State, pc: PC, list: nat)
    requires list < |s.heads|
  {
    match pc
    case PopLoad(i) => i == list
    case PopRead(i, h) => i == list && s.heads[i] == h
    case PopCas(i, h, _) => i == list && s.heads[i] == h
    case PopMark(_) => true
    case GlobalLoad(i, h) => i == list && s.heads[i] == h && h.idx == 0
    case GlobalRead(i, h, gh) => i == list && s.heads[i] == h && s.globalHead == gh
    case GlobalCas(i, h, gh, _) => i == list && s.heads[i] == h && s.globalHead == gh
    case RefillRead(i, h, _) => i == list && s.heads[i] == h
    case RefillCas(i, h, _, _) => i == list && s.heads[i] == h
    case SizeLoad => s.heads[list].idx == 0 && s.globalHead.idx == 0
    case SizeIncr => s.size < s.cap
    case _ => false
  }

  lemma SoloStep(s: State, s': State, t: nat, list: nat)
    requires Inv(s) && t < |s.threads| && Step(s, s', t) && list < |s.heads| && Solo(s, s.threads[t], list)
    ensures |s'.heads| == |s.heads| && |s'.threads| == |s.threads|
    ensures s'.threads[t].Idle? || Solo(s', s'.threads[t], list)
  {
    assert ThreadAt(s, t);
  }

  predicate Inside(s: State, t: nat) { t < |s.threads| && !s.threads[t].Idle? }

  /** A call of allocIndex by thread t on `list`: entered at step i, returning at step j,
      with no step of another thread in between. */
  ghost predicate UndisturbedAlloc(run: seq<State>, t: nat, list: nat, i: nat, j: nat)
  {
    && i < j < |run| - 1
    && t < |run[i].threads| && StepAlloc(run[i], run[i + 1], t, list)
    && (forall k | i < k <= j :: StepBy(run, k, t)) && (forall k | i < k <= j :: Inside(run[k], t))
    && t < |run[j].threads| && t < |run[j + 1].threads| && run[j + 1].threads[t].Idle?
  }

  lemma {:induction false} SoloRun(run: seq<State>, t: nat, list: nat, i: nat, j: nat, k: nat)
    requires IsRun(run) && UndisturbedAlloc(run, t, list, i, j) && i < k <= j
    ensures list < |run[k].heads| && t < |run[k].threads| && Solo(run[k], run[k].threads[t], list)
    decreases k
  {
    assert Inside(run[k], t);
    if k > i + 1 {
      SoloRun(run, t, list, i, j, k - 1);
      SoloRunStep(run, t, list, k - 1);
    } else {
      SoloStart(run[i], run[k], t, list);
    }
  }

  lemma SoloStart(s: State, s': State, t: nat, list: nat)
    requires t < |s.threads| && StepAlloc(s, s', t, list)
    ensures list < |s'.heads| && t < |s'.threads| && Solo(s', s'.threads[t], list)
  {
  }

  lemma SoloRunStep(run: seq<State>, t: nat, list: nat, k: nat)
    requires IsRun(run) && k + 1 < |run| && StepBy(run, k, t) && list < |run[k].heads| && Solo(run[k], run[k].threads[t], list)
    ensures list < |run[k + 1].heads| && t < |run[k + 1].threads|
    ensures run[k + 1].threads[t].Idle? || Solo(run[k + 1], run[k + 1].threads[t], list)
  {
    RunInv(run, k);
    SoloStep(run[k], run[k + 1], t, list);
  }

  /** An undisturbed allocIndex returns an index or finds capacity() indices allocated or
      in the hands of threads stopped inside their own calls. */
  lemma AllocFailsOnlyAtCapacity(run: seq<State>, t: nat, list: nat, i: nat, j: nat)
    requires IsRun(run) && UndisturbedAlloc(run, t, list, i, j)
    ensures var s, s' := run[j], run[j + 1];
            || (s.threads[t].PopMark? && Granted(Clients(s), Clients(s'), s.threads[t].idx))
            || (s.threads[t].SizeLoad?
                && |Clients(s')| + |InHands(s'.ledger)| >= CapacityForMaxIndex(s'.cap, |s'.heads|, s'.limit))
  {
    SoloRun(run, t, list, i, j, j);
    RunInv(run, j);
    assert StepBy(run, j, t);
    var s, s' := run[j], run[j + 1];
    assert ThreadAt(s, t);
    if s.threads[t].PopMark? {
      GrantOk(s.ledger, Hand(t));
      TopPlace(s.ledger, Hand(t));
    } else {
      ExhaustedCount(s, list);
    }
  }

  // ------------------------------------------------------------------- whole calls

  /** Where a call of allocIndex on `list` can be. */
  predicate InAlloc(pc: PC, list: nat) {
    match pc
    case PopLoad(i) => i == list
    case PopRead(i, _) => i == list
    case PopCas(i, _, _) => i == list
    case GlobalLoad(i, _) => i == list
    case GlobalRead(i, _, _) => i == list
    case GlobalCas(i, _, _, _) => i == list
    case RefillRead(i, _, _) => i == list
    case RefillCas(i, _, _, _) => i == list
    case SpillLoad(_, after) => after == Retry(list)
    case SpillWrite(_, after, _) => after == Retry(list)
    case SpillCas(_, after, _) => after == Retry(list)
    case SizeLoad => true
    case SizeIncr => true
    case PopMark(_) => true
    case _ => false
  }

  predicate LocalEmpty(s: State, list: nat) { list < |s.heads| && s.heads[list].idx == 0 }

  /** The local list was empty at a state from b to e. */
  ghost predicate SawLocal(run: seq<State>, list: nat, b: nat, e: nat) {
    exists x: nat :: b <= x <= e < |run| && LocalEmpty(run[x], list)
  }

  /** The local list was empty at a state from b to e, and then the global list. */
  ghost predicate SawNothing(run: seq<State>, list: nat, b: nat, e: nat) {
    exists y: nat :: b <= y <= e < |run| && run[y].globalHead.idx == 0 && SawLocal(run, list, b, y)
  }

  /** What a call in its state e has seen since state b. */
  ghost predicate AllocHistory(run: seq<State>, list: nat, b: nat, e: nat, pc: PC) {
    && InAlloc(pc, list)
    && (pc.GlobalLoad? || pc.GlobalRead? || pc.GlobalCas? ==> SawLocal(run, list, b, e))
    && (pc.SizeLoad? || pc.SizeIncr? ==> SawNothing(run, list, b, e))
  }

  lemma SawLater(run: seq<State>, list: nat, b: nat, e: nat)
    requires e + 1 < |run|
    ensures SawLocal(run, list, b, e) ==> SawLocal(run, list, b, e + 1)
    ensures SawNothing(run, list, b, e) ==> SawNothing(run, list, b, e + 1)
  {
  }

  /** A step of the call itself that does not end it. */
  lemma OwnAlloc(run: seq<State>, t: nat, list: nat, b: nat, e: nat)
    requires b <= e && e + 1 < |run| && StepBy(run, e, t) && AllocHistory(run, list, b, e, run[e].threads[t])
    ensures t < |run[e + 1].threads|
    ensures run[e + 1].threads[t].Idle? || AllocHistory(run, list, b, e, run[e + 1].threads[t])
  {
    var s, s' := run[e], run[e + 1];
    match s.threads[t]
    case PopLoad(_) => assert s.heads[list].idx == 0 ==> LocalEmpty(s, list);
    case GlobalLoad(_, _) => assert s.globalHead.idx == 0 ==> SawNothing(run, list, b, e);
    case _ =>
  }

  lemma OtherStays(run: seq<State>, e: nat, t: nat, u: nat)
    requires e + 1 < |run| && StepBy(run, e, u) && t < |run[e].threads| && t != u
    ensures t < |run[e + 1].threads| && run[e + 1].threads[t] == run[e].threads[t]
  {
  }

  /** A call of allocIndex by thread t on `list`, entered at step i, that is running at state e. */
  ghost predicate AllocCall(run: seq<State>, t: nat, list: nat, i: nat, e: nat) {
    && i < e < |run|
    && t < |run[i].threads| && StepAlloc(run[i], run[i + 1], t, list)
    && forall k | i < k <= e :: Inside(run[k], t)
  }

  lemma {:induction false} AllocSoFar(run: seq<State>, t: nat, list: nat, i: nat, e: nat)
    requires IsRun(run) && AllocCall(run, t, list, i, e)
    ensures AllocHistory(run, list, i + 1, e, run[e].threads[t])
    decreases e
  {
    if i + 1 < e {
      assert Inside(run[e - 1], t) && Inside(run[e], t);
      AllocSoFar(run, t, list, i, e - 1);
      AllocGoesOn(run, t, list, i + 1, e - 1);
    }
  }

  lemma AllocGoesOn(run: seq<State>, t: nat, list: nat, b: nat, e: nat)
    requires IsRun(run) && b <= e && e + 1 < |run| && t < |run[e].threads| && AllocHistory(run, list, b, e, run[e].threads[t])
    ensures t < |run[e + 1].threads|
    ensures run[e + 1].threads[t].Idle? || AllocHistory(run, list, b, e + 1, run[e + 1].threads[t])
  {
    assert NextAt(run, e);
    var u: nat :| StepBy(run, e, u);
    if u == t {
      OwnAlloc(run, t, list, b, e);
    } else {
      OtherStays(run, e, t, u);
    }
    SawLater(run, list, b, e);
  }

  /** However others interfere, an allocIndex that is over has made an index the caller's, or has
      seen its local list empty, then the global list, then every slot constructed. */
  lemma AllocReports(run: seq<State>, t: nat, list: nat, i: nat, e: nat)
    requires IsRun(run) && AllocCall(run, t, list, i, e) && e + 1 < |run| && t < |run[e + 1].threads| && run[e + 1].threads[t].Idle?
    ensures var s, s' := run[e], run[e + 1];
            || (s.threads[t].PopMark? && Granted(Clients(s), Clients(s'), s.threads[t].idx))
            || (s.size >= s.cap && SawNothing(run, list, i + 1, e))
  {
    AllocSoFar(run, t, list, i, e);
    assert Inside(run[e], t);
    assert NextAt(run, e);
    var u: nat :| StepBy(run, e, u);
    if u != t {
      OtherStays(run, e, t, u);
      assert false;
    }
    RunInv(run, e);
    var s := run[e];
    assert ThreadAt(s, t);
    if s.threads[t].PopMark? {
      GrantOk(s.ledger, Hand(t));
      TopPlace(s.ledger, Hand(t));
    } else {
      AllocEnds(s, run[e + 1], t, list);
    }
  }

  lemma AllocEnds(s: State, s': State, t: nat, list: nat)
    requires t < |s.threads| && Step(s, s', t) && InAlloc(s.threads[t], list) && t < |s'.threads| && s'.threads[t].Idle?
    ensures s.threads[t].PopMark? || ((s.threads[t].SizeLoad? || s.threads[t].SizeIncr?) && s.size >= s.cap)
  {
  }

  /** A thread outside all calls has nothing in hand: what it took from a list the client got, and
      what the client gave back is in a list or in another hand. */
  lemma IdleHoldsNothing(run: seq<State>, k: nat, t: nat)
    requires IsRun(run) && k < |run| && t < |run[k].threads| && run[k].threads[t].Idle?
    ensures run[k].ledger.Bag(Hand(t)) == []
  {
    RunInv(run, k);
    assert ThreadAt(run[k], t);
  }

  /** With calls that do not overlap: 0 is returned only when capacity() indices are allocated. */
  lemma SequentialAllocFailsOnlyAtCapacity(run: seq<State>, t: nat, list: nat, i: nat, j: nat)
    requires IsRun(run) && UndisturbedAlloc(run, t, list, i, j) && run[j].threads[t].SizeLoad?
    requires forall u | 0 <= u < |run[j].threads| && u != t :: run[j].threads[u].Idle?
    ensures |Clients(run[j + 1])| >= CapacityForMaxIndex(run[j].cap, |run[j].heads|, run[j].limit)
  {
    AllocFailsOnlyAtCapacity(run, t, list, i, j);
    RunInv(run, j);
    assert StepBy(run, j, t);
    var l := run[j].ledger;
    forall w | l.Bag(w) != [] ensures !w.Hand? {
      assert Possible(run[j], w);
      assert w.Hand? ==> ThreadAt(run[j], w.thread);
    }
    assert forall x | 0 <= x < |l.place| && l.place[x].At? :: InBag(l, x);
    assert InHands(run[j + 1].ledger) == {};
  }

  /** A pool built for `capacity` elements reports that capacity exactly when the boost for
      the local lists fits the index type; otherwise it reports less. */
  lemma CapacityIsKept(capacity: nat, lists: nat, limit: nat)
    requires lists > 0
    ensures var c := CapacityForMaxIndex(MaxIndexForCapacity(capacity, lists, limit), lists, limit);
            c <= capacity && (c == capacity <==> capacity + (lists - 1) * limit < ALLOCATED)
    ensures MaxIndexForCapacity(capacity, lists, limit) < ALLOCATED
  {
  }

  // ------------------------------------------------------------- the size counter

  function AtIncr(threads: seq<PC>): (n: nat)
    ensures n <= |threads|
  {
    if threads == [] then 0 else AtIncr(threads[1..]) + if threads[0].SizeIncr? then 1 else 0
  }

  lemma {:induction false} AtIncrUpdate(threads: seq<PC>, t: nat, pc: PC)
    requires t < |threads|
    ensures AtIncr(threads[t := pc]) ==
            AtIncr(threads) - (if threads[t].SizeIncr? then 1 else 0) + (if pc.SizeIncr? then 1 else 0)
  {
    var after := threads[t := pc];
    if t == 0 {
      assert after[1..] == threads[1..];
    } else {
      AtIncrUpdate(threads[1..], t - 1, pc);
      assert after[1..] == threads[1..][t - 1 := pc];
    }
  }

  /** size_ is incremented without a compare-and-swap, yet stays below actualCapacity_ plus
      the number of threads. */
  lemma {:induction false} SizeStaysBounded(run: seq<State>, k: nat)
    requires IsRun(run) && k < |run| && |run[0].threads| > 0
    ensures run[k].size + AtIncr(run[k].threads) < run[k].cap + |run[k].threads|
    ensures |run[k].threads| == |run[0].threads| && run[k].cap == run[0].cap
    ensures run[k].cap + |run[k].threads| <= 0x1_0000_0000 ==> run[k].size < 0x1_0000_0000
    decreases k
  {
    if k > 0 {
      SizeStaysBounded(run, k - 1);
      assert NextAt(run, k - 1);
      var t: nat :| StepBy(run, k - 1, t);
      SizeStep(run[k - 1], run[k], t);
    } else {
      NobodyAtIncr(run[0].threads);
    }
  }

  lemma {:induction false} NobodyAtIncr(threads: seq<PC>)
    requires forall t | 0 <= t < |threads| :: threads[t].Idle?
    ensures AtIncr(threads) == 0
  {
    if threads != [] {
      NobodyAtIncr(threads[1..]);
    }
  }

  lemma SizeStep(s: State, s': State, t: nat)
    requires t < |s.threads| && Step(s, s', t)
    requires s.size + AtIncr(s.threads) < s.cap + |s.threads|
    ensures s'.size + AtIncr(s'.threads) < s'.cap + |s'.threads|
    ensures |s'.threads| == |s.threads| && s'.cap == s.cap
  {
    SizeChanges(s, s', t);
    AtIncrUpdate(s.threads, t, s'.threads[t]);
  }

  lemma SizeChanges(s: State, s': State, t: nat)
    requires t < |s.threads| && Step(s, s', t)
    ensures |s'.threads| == |s.threads| && s'.threads == s.threads[t := s'.threads[t]] && s'.cap == s.cap
    ensures s'.size == s.size + if s.threads[t].SizeIncr? then 1 else 0
    ensures s'.threads[t].SizeIncr? ==> s.threads[t].SizeLoad? && s.size < s.cap
  {
    match s.threads[t]
    case Idle =>
    case SizeLoad =>
    case SizeIncr =>
    case _ => assert s'.size == s.size && !s'.threads[t].SizeIncr?;
  }

  // ------------------------------------------------------------ the bound is reached

  function Final(run: seq<State>): State
    requires |run| > 0
  {
    run[|run| - 1]
  }

  lemma Extended(run: seq<State>, s': State, t: nat)
    requires IsRun(run) && t < |Final(run).threads| && Step(Final(run), s', t)
    ensures IsRun(run + [s']) && Final(run + [s']) == s' && (run + [s'])[0] == run[0]
  {
    var longer := run + [s'];
    forall k | 0 <= k < |longer| - 1 ensures NextAt(longer, k) {
      if k < |run| - 1 {
        assert NextAt(run, k);
        var u: nat :| StepBy(run, k, u);
        assert StepBy(longer, k, u);
      } else {
        assert StepBy(longer, k, t);
      }
    }
  }

  /** The stripe and the global list have nothing to give. */
  predicate Barren(s: State) {
    |s.heads| > 0 && s.heads[0].idx == 0 && s.globalHead.idx == 0 && |s.localNext| == |s.globalNext| == s.cap + 1
  }

  /** An allocIndex that gets as far as the increment. */
  lemma ToIncr(run: seq<State>, t: nat) returns (run': seq<State>)
    requires IsRun(run) && Barren(Final(run)) && Final(run).size < Final(run).cap
    requires t < |Final(run).threads| && Final(run).threads[t].Idle?
    ensures IsRun(run') && run'[0] == run[0] && Final(run') == Goto(Final(run), t, SizeIncr)
  {
    var s := Final(run);
    var s1, s2, s3, s4 := Goto(s, t, PopLoad(0)), Goto(s, t, GlobalLoad(0, s.heads[0])), Goto(s, t, SizeLoad), Goto(s, t, SizeIncr);
    assert StepAlloc(s, s1, t, 0);
    Extended(run, s1, t);
    assert s2 == Goto(s1, t, GlobalLoad(0, s.heads[0]));
    Extended(run + [s1], s2, t);
    assert s3 == Goto(s2, t, SizeLoad);
    Extended(run + [s1] + [s2], s3, t);
    assert s4 == Goto(s3, t, SizeIncr);
    Extended(run + [s1] + [s2] + [s3], s4, t);
    run' := run + [s1] + [s2] + [s3] + [s4];
  }

  /** A whole allocIndex that constructs a new slot. */
  lemma ConstructOne(run: seq<State>) returns (run': seq<State>)
    requires IsRun(run) && Barren(Final(run)) && Final(run).size < Final(run).cap
    requires 0 < |Final(run).threads| && Final(run).threads[0].Idle?
    ensures IsRun(run') && run'[0] == run[0] && Barren(Final(run'))
    ensures Final(run').size == Final(run).size + 1 && Final(run').cap == Final(run).cap && Final(run').threads == Final(run).threads
  {
    var r1 := ToIncr(run, 0);
    var s := Final(r1);
    var idx := s.size + 1;
    var s1 := Goto(s.(size := idx, ledger := s.ledger.Enter(idx, Hand(0))), 0, PopMark(idx));
    Extended(r1, s1, 0);
    var s2 := Goto(s1.(localNext := s1.localNext[idx := ALLOCATED], ledger := s1.ledger.Grant(Hand(0))), 0, Idle);
    Extended(r1 + [s1], s2, 0);
    run' := r1 + [s1] + [s2];
    assert s2.threads == Final(run).threads;
  }

  lemma {:induction false} Construct(s: State, n: nat) returns (run: seq<State>)
    requires Init(s) && n <= s.cap && 0 < |s.threads|
    ensures IsRun(run) && run[0] == s && Barren(Final(run))
    ensures Final(run).size == n && Final(run).cap == s.cap && Final(run).threads == s.threads
    decreases n
  {
    if n == 0 {
      run := [s];
    } else {
      run := Construct(s, n - 1);
      run := ConstructOne(run);
    }
  }

  /** The first t threads are about to increment, the others idle. */
  predicate Lined(threads: seq<PC>, t: nat) {
    t <= |threads| && forall u | 0 <= u < |threads| :: threads[u] == if u < t then SizeIncr else Idle
  }

  lemma {:induction false} LineUp(run: seq<State>, t: nat) returns (run': seq<State>)
    requires IsRun(run) && Barren(Final(run)) && Final(run).size < Final(run).cap && t <= |Final(run).threads|
    requires Lined(Final(run).threads, 0)
    ensures IsRun(run') && run'[0] == run[0] && Lined(Final(run').threads, t)
    ensures Final(run') == Final(run).(threads := Final(run').threads) && |Final(run').threads| == |Final(run).threads|
    decreases t
  {
    if t == 0 {
      run' := run;
    } else {
      run' := LineUp(run, t - 1);
      run' := ToIncr(run', t - 1);
    }
  }

  lemma {:induction false} IncrementAll(run: seq<State>, t: nat) returns (run': seq<State>)
    requires IsRun(run) && t <= |Final(run).threads| && forall u | 0 <= u < t :: Final(run).threads[u].SizeIncr?
    ensures IsRun(run') && run'[0] == run[0] && Final(run').size == Final(run).size + t
    decreases t
  {
    if t == 0 {
      run' := run;
    } else {
      var s, u := Final(run), t - 1;
      var s1 := if s.size + 1 > s.cap then Goto(s.(size := s.size + 1), u, Idle)
                else Goto(s.(size := s.size + 1, ledger := s.ledger.Enter(s.size + 1, Hand(u))), u, PopMark(s.size + 1));
      Extended(run, s1, u);
      run' := IncrementAll(run + [s1], t - 1);
    }
  }

  /** The bound of SizeStaysBounded is the best: the counter gets that far when every thread
      has seen room for one more.  So it can pass 32 bits exactly when actualCapacity_ and the
      number of threads together do. */
  lemma SizeReachesBound(s: State) returns (run: seq<State>)
    requires Init(s) && 0 < s.cap && 0 < |s.threads|
    ensures IsRun(run) && run[0] == s && Final(run).size == s.cap + |s.threads| - 1
  {
    run := Construct(s, s.cap - 1);
    run := LineUp(run, |s.threads|);
    run := IncrementAll(run, |s.threads|);
  }

  // ------------------------------------------------------------------ nobody is stuck

  /** The side conditions of the steps never stop a thread inside a call. */
  lemma RunningThreadCanStep(s: State, t: nat) returns (s': State)
    requires Inv(s) && t < |s.threads| && !s.threads[t].Idle?
    ensures Step(s, s', t)
  {
    assert ThreadAt(s, t);
    TopPlace(s.ledger, Hand(t));
    match s.threads[t]
    case PopLoad(list) =>
      s' := Goto(s, t, if s.heads[list].idx != 0 then PopRead(list, s.heads[list]) else GlobalLoad(list, s.heads[list]));
    case PopRead(list, h) => s' := Goto(s, t, PopCas(list, h, s.localNext[h.idx]));
    case PopCas(list, h, next) =>
      s' := if s.heads[list] == h
            then Goto(s.(heads := s.heads[list := h.WithIdx(next).WithSizeDecr()],
                         ledger := s.ledger.MoveTop(Local(list), Hand(t))), t, PopMark(h.idx))
            else Goto(s, t, PopLoad(list));
    case PopMark(idx) => s' := Goto(s.(localNext := s.localNext[idx := ALLOCATED], ledger := s.ledger.Grant(Hand(t))), t, Idle);
    case SizeLoad => s' := Goto(s, t, if s.size >= s.cap then Idle else SizeIncr);
    case SizeIncr =>
      s' := if s.size + 1 > s.cap then Goto(s.(size := s.size + 1), t, Idle)
            else Goto(s.(size := s.size + 1, ledger := s.ledger.Enter(s.size + 1, Hand(t))), t, PopMark(s.size + 1));
    case PushLoad(list, idx) => s' := Goto(s, t, PushWrite(list, idx, s.heads[list]));
    case PushWrite(list, idx, h) =>
      s' := Goto(s.(localNext := s.localNext[idx := h.idx]), t,
                 if h.size == s.limit then StealCas(list, idx, h) else PushCas(list, idx, h));
    case PushCas(list, idx, h) =>
      s' := if s.heads[list] == h
            then Goto(s.(heads := s.heads[list := h.WithIdx(idx).WithSizeIncr()],
                         ledger := s.ledger.MoveTop(Hand(t), Local(list))), t, Idle)
            else Goto(s, t, PushWrite(list, idx, s.heads[list]));
    case _ => s' := GlobalThreadCanStep(s, t);
  }

  lemma GlobalThreadCanStep(s: State, t: nat) returns (s': State)
    requires Shape(s) && GlobalOk(s) && t < |s.threads| && ThreadAt(s, t) && AssertsHold(s, s.threads[t])
    requires var pc := s.threads[t]; pc.GlobalLoad? || pc.GlobalRead? || pc.GlobalCas? || pc.StealCas? || HoldsList(pc)
    ensures Step(s, s', t)
  {
    match s.threads[t]
    case GlobalLoad(list, h) => s' := Goto(s, t, if s.globalHead.idx == 0 then SizeLoad else GlobalRead(list, h, s.globalHead));
    case GlobalRead(list, h, gh) => s' := Goto(s, t, GlobalCas(list, h, gh, s.globalNext[gh.idx]));
    case GlobalCas(list, h, gh, next) =>
      if s.globalHead == gh {
        s' := Goto(s.(globalHead := gh.WithIdx(next), depth := s.depth - 1,
                      ledger := s.ledger.MoveAll(Global(s.depth - 1), Hand(t))), t, RefillRead(list, h, gh.idx));
      } else {
        s' := Goto(s, t, GlobalLoad(list, h));
      }
    case RefillRead(list, h, idx) => s' := Goto(s, t, RefillCas(list, h, idx, s.localNext[idx]));
    case RefillCas(list, h, idx, next) =>
      s' := if s.heads[list] == h
            then Goto(s.(heads := s.heads[list := h.WithIdx(next).WithSize(s.limit)],
                         ledger := s.ledger.MoveAll(Hand(t), Local(list)).MoveTop(Local(list), Hand(t))), t, PopMark(idx))
            else Goto(s, t, SpillLoad(idx, Retry(list)));
    case StealCas(list, idx, h) =>
      s' := if s.heads[list] == h
            then Goto(s.(heads := s.heads[list := h.WithEmpty()],
                         ledger := s.ledger.MoveTop(Hand(t), Local(list)).MoveAll(Local(list), Hand(t))), t, SpillLoad(idx, Done))
            else Goto(s, t, PushWrite(list, idx, s.heads[list]));
    case SpillLoad(idx, after) => s' := Goto(s, t, SpillWrite(idx, after, s.globalHead));
    case SpillWrite(idx, after, gh) => s' := Goto(s.(globalNext := s.globalNext[idx := gh.idx]), t, SpillCas(idx, after, gh));
    case SpillCas(idx, after, gh) =>
      s' := if s.globalHead == gh
            then Goto(s.(globalHead := gh.WithIdx(idx), depth := s.depth + 1,
                         ledger := s.ledger.MoveAll(Hand(t), Global(s.depth))), t, Continue(after))
            else Goto(s, t, SpillLoad(idx, after));
  }
}
