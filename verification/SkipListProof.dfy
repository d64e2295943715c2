/** What every run of the ConcurrentSkipList step system keeps. */
module SkipListProof {
  import opened Common
  import opened SkipList

  // ------------------------------------------------------------------- structure

  ghost predicate InLayer(s: State, n: nat, l: nat) { l < |s.chain| && n in s.chain[l] }

  /** A node that was linked at layer l: it still is, or it is marked. */
  ghost predicate InOrGone(s: State, n: nat, l: nat) {
    && IsNode(s, n) && s.nodes[n].rank > 0 && l < s.nodes[n].height
    && (s.nodes[n].marked || InLayer(s, n, l))
  }

  /** A node a search may have come through at layer l. */
  ghost predicate PredOk(s: State, n: nat, l: nat) {
    && IsNode(s, n) && l < s.nodes[n].height
    && if s.nodes[n].rank == 0 then n == s.head || n in s.retired else InOrGone(s, n, l)
  }

  /** Pointers go right, also those of nodes no longer linked. */
  ghost predicate PtrOk(s: State, n: nat, l: nat)
    requires HasLayer(s, n, l)
  {
    var m := s.nodes[n].skip[l];
    m == 0 || (InOrGone(s, m, l) && s.nodes[m].rank > s.nodes[n].rank)
  }

  ghost predicate NodeAt(s: State, n: nat)
    requires IsNode(s, n)
  {
    0 < s.nodes[n].height == |s.nodes[n].skip| && forall l | 0 <= l < s.nodes[n].height :: PtrOk(s, n, l)
  }

  ghost predicate NodesOk(s: State) {
    forall n | IsNode(s, n) :: NodeAt(s, n)
  }

  /** The i-th node of layer l points to the next one, which ranks higher. */
  ghost predicate LinkAt(nodes: seq<Node>, c: seq<nat>, l: nat, i: nat)
    requires i < |c|
  {
    && 0 < c[i] < |nodes| && nodes[c[i]].rank > 0 && l < nodes[c[i]].height && l < |nodes[c[i]].skip|
    && nodes[c[i]].skip[l] == (if i + 1 < |c| then c[i + 1] else 0)
    && (i + 1 < |c| ==> c[i + 1] < |nodes| && nodes[c[i]].rank < nodes[c[i + 1]].rank)
  }

  /** Layer l from the head: strictly sorted and correctly linked. */
  ghost predicate LayerAt(nodes: seq<Node>, head: nat, c: seq<nat>, l: nat) {
    && 0 < head < |nodes| && l < |nodes[head].skip|
    && nodes[head].skip[l] == (if c == [] then 0 else c[0])
    && forall i | 0 <= i < |c| :: LinkAt(nodes, c, l, i)
  }

  ghost predicate LayersOk(s: State) {
    forall l | 0 <= l < |s.chain| :: LayerAt(s.nodes, s.head, s.chain[l], l)
  }

  /** Every layer is contained in the one below. */
  ghost predicate NestedAt(s: State, l: nat)
    requires 0 < l < |s.chain|
  {
    forall n | n in s.chain[l] :: n in s.chain[l - 1]
  }

  ghost predicate Nested(s: State) {
    forall l | 0 < l < |s.chain| :: NestedAt(s, l)
  }

  ghost predicate HeadOk(s: State) {
    && IsNode(s, s.head) && s.nodes[s.head].rank == 0 && !s.nodes[s.head].marked && s.head !in s.retired
    && s.nodes[s.head].height == |s.chain| > 0
  }

  /** A fully linked node that is not marked is in all its layers. */
  ghost predicate LinkedAt(s: State, n: nat)
    requires IsNode(s, n)
  {
    s.nodes[n].rank > 0 && s.nodes[n].linked && !s.nodes[n].marked ==> InLayers(s, n, s.nodes[n].height)
  }

  ghost predicate InLayers(s: State, n: nat, h: nat) {
    forall l | 0 <= l < h :: InLayer(s, n, l)
  }

  ghost predicate LinkedOk(s: State) {
    forall n | IsNode(s, n) :: LinkedAt(s, n)
  }

  ghost predicate Struct(s: State) {
    HeadOk(s) && NodesOk(s) && LayersOk(s) && Nested(s) && LinkedOk(s)
  }

  // --------------------------------------------------------------------- threads

  ghost predicate HoldsLock(s: State, n: nat, t: nat) { IsNode(s, n) && s.nodes[n].holder == Some(t) }

  /** The marked victim of a remove, still linked in its first n layers. */
  ghost predicate VictimOk(s: State, t: nat, op: Op, n: nat) {
    && HoldsLock(s, op.victim, t) && s.nodes[op.victim].rank == op.rank && s.nodes[op.victim].marked
    && n <= s.nodes[op.victim].height && InLayers(s, op.victim, n)
  }

  ghost predicate OpOk(s: State, t: nat, op: Op) {
    && op.rank > 0
    && (op.victim != 0 ==> op.removing && IsNode(s, op.victim) && VictimOk(s, t, op, s.nodes[op.victim].height))
  }

  ghost predicate SuccOk(s: State, q: Search, m: nat) {
    m == 0 || (IsNode(s, m) && s.nodes[m].rank >= q.op.rank && (q.found == 0 ==> s.nodes[m].rank > q.op.rank))
  }

  /** preds ranks fall from layer to layer, unless the node is the same. */
  predicate Falls(s: State, a: nat, b: nat)
  {
    IsNode(s, a) && IsNode(s, b) && (a == b || s.nodes[b].rank < s.nodes[a].rank)
  }

  ghost predicate LayerFound(s: State, q: Search, l: nat)
    requires l < |q.preds| && l < |q.succs|
  {
    && PredOk(s, q.preds[l], l) && s.nodes[q.preds[l]].rank < q.op.rank && SuccOk(s, q, q.succs[l])
    && (l + 1 < |q.preds| ==> Falls(s, q.preds[l], q.preds[l + 1]))
  }

  /** The search has filled the layers from lo up. */
  ghost predicate SearchOk(s: State, q: Search, lo: nat) {
    && |q.preds| == |q.succs| == q.top + 1 <= |s.chain|
    && (forall l | lo <= l <= q.top :: LayerFound(s, q, l))
    && (q.found != 0 ==> IsNode(s, q.found) && s.nodes[q.found].rank == q.op.rank && q.layer <= q.top)
    && (q.op.victim != 0 ==> IsNode(s, q.op.victim) && s.nodes[q.op.victim].height <= q.top + 1)
  }

  ghost predicate Held(s: State, t: nat, q: Search, k: nat) {
    k <= |q.preds| && forall l | 0 <= l < k :: HoldsLock(s, q.preds[l], t)
  }

  /** Locked predecessors found valid at the layers lo..k-1. */
  ghost predicate ValidAt(s: State, q: Search, l: nat)
    requires l < |q.preds| && l < |q.succs|
  {
    HasLayer(s, q.preds[l], l) && !s.nodes[q.preds[l]].marked && s.nodes[q.preds[l]].skip[l] == q.succs[l]
  }

  ghost predicate Validated(s: State, q: Search, lo: nat, k: nat) {
    k <= |q.preds| && k <= |q.succs| && forall l | lo <= l < k :: ValidAt(s, q, l)
  }

  /** A lockNodesForChange in progress: k layers locked, v of them validated. */
  ghost predicate LockOk(s: State, t: nat, q: Search, h: nat, k: nat, v: nat) {
    && SearchOk(s, q, 0) && OpOk(s, t, q.op) && Held(s, t, q, k) && Validated(s, q, 0, v)
    && v <= k <= h <= q.top + 1 && 0 < h
    && (q.op.removing ==> q.op.victim != 0 && s.nodes[q.op.victim].height == h) && (!q.op.removing ==> q.found == 0)
  }

  /** A node being linked, bottom up. */
  ghost predicate NewOk(s: State, t: nat, q: Search, h: nat, n: nat, l: nat) {
    && IsNode(s, n) && s.nodes[n].rank == q.op.rank && s.nodes[n].height == h
    && !s.nodes[n].marked && !s.nodes[n].linked && n in s.maker && s.maker[n] == t
    && InLayers(s, n, l) && l <= h && forall j | l <= j < h :: !InLayer(s, n, j)
  }

  ghost predicate LinkingOk(s: State, t: nat, q: Search, h: nat, n: nat, l: nat) {
    && SearchOk(s, q, 0) && OpOk(s, t, q.op) && !q.op.removing && q.found == 0 && h <= q.top + 1
    && Held(s, t, q, h) && Validated(s, q, l, h) && NewOk(s, t, q, h, n, l)
  }

  ghost predicate CuttingOk(s: State, t: nat, q: Search, h: nat, l: nat) {
    && SearchOk(s, q, 0) && q.op.rank > 0 && q.op.removing && q.op.victim != 0 && l < h <= q.top + 1
    && Held(s, t, q, h) && Validated(s, q, 0, l + 1) && VictimOk(s, t, q.op, l + 1) && s.nodes[q.op.victim].height == h
    && forall j | l < j < h :: !InLayer(s, q.op.victim, j)
  }

  /** A head being made. */
  ghost predicate NewHeadOk(s: State, t: nat, h: nat, prev: nat, n: nat) {
    && IsNode(s, prev) && s.nodes[prev].rank == 0 && (prev == s.head || prev in s.retired) && s.nodes[prev].height < h
    && IsNode(s, n) && s.nodes[n].rank == 0 && s.nodes[n].height == h && n in s.maker && s.maker[n] == t
    && n != s.head && n !in s.retired
  }

  ghost predicate Copied(s: State, prev: nat, n: nat, at: nat) {
    && IsNode(s, prev) && IsNode(s, n) && at <= |s.nodes[prev].skip| && |s.nodes[prev].skip| <= |s.nodes[n].skip|
    && s.nodes[n].marked == s.nodes[prev].marked
    && (forall l | 0 <= l < at :: s.nodes[n].skip[l] == s.nodes[prev].skip[l])
    && (forall l | at <= l < |s.nodes[n].skip| :: s.nodes[n].skip[l] == 0)
  }

  ghost predicate FindOk(s: State, t: nat, pc: PC) {
    match pc
    case FindMax(op) => OpOk(s, t, op)
    case FindHead(op, top) =>
      && OpOk(s, t, op) && top < |s.chain|
      && (op.victim != 0 ==> IsNode(s, op.victim) && s.nodes[op.victim].height <= top + 1)
    case Walk(q, at, pred) =>
      && SearchOk(s, q, at + 1) && OpOk(s, t, q.op) && at <= q.top
      && PredOk(s, pred, at) && s.nodes[pred].rank < q.op.rank
      && (at < q.top ==> Falls(s, pred, q.preds[at + 1]))
    case AddFound(op, node) => OpOk(s, t, op) && op.victim == 0 && IsNode(s, node) && s.nodes[node].rank == op.rank
    case AddWait(op, node) => OpOk(s, t, op) && op.victim == 0 && IsNode(s, node) && s.nodes[node].rank == op.rank
    case Choose(q) => SearchOk(s, q, 0) && OpOk(s, t, q.op) && !q.op.removing && q.found == 0
    case Seek(k) => SeekOk(s, k)
    case _ => true
  }

  /** A find at work. */
  ghost predicate SeekOk(s: State, k: Seeking) {
    match k
    case SeekHead(r) => r > 0
    case SeekDown(r, ht, pred) => IsNode(s, pred) && s.nodes[pred].rank < r && (ht > 0 ==> PredOk(s, pred, ht - 1))
    case SeekLoad(r, l, pred) => PredOk(s, pred, l) && s.nodes[pred].rank < r
    case SeekRight(r, l, pred, node) => PredOk(s, pred, l) && s.nodes[pred].rank < r && (node == 0 || (InOrGone(s, node, l) && s.nodes[node].rank > s.nodes[pred].rank))
    case SeekMarked(r, node) => IsNode(s, node) && s.nodes[node].rank == r > 0
    case SeekEnd(r, node) => node != 0 ==> IsNode(s, node) && s.nodes[node].rank == r > 0
  }

  ghost predicate RemovingOk(s: State, t: nat, pc: PC) {
    match pc
    case RemoveLinked(q) => RemoveOk(s, t, q)
    case RemoveMarked(q) => RemoveOk(s, t, q) && Removable(s, q)
    case RemoveLock(q) => RemoveOk(s, t, q) && Removable(s, q)
    case RemoveCheck(q) => RemoveOk(s, t, q) && Removable(s, q) && HoldsLock(s, q.found, t)
    case RemoveMark(q) => RemoveOk(s, t, q) && Removable(s, q) && HoldsLock(s, q.found, t) && !s.nodes[q.found].marked
    case FreeVictim(n) => HoldsLock(s, n, t)
    case _ => true
  }

  ghost predicate LockingOk(s: State, t: nat, pc: PC) {
    match pc
    case Lock(q, h, l) => LockOk(s, t, q, h, l, l) && l < h
    case LockMarked(q, h, l) => LockOk(s, t, q, h, l + 1, l)
    case LockSkip(q, h, l) => LockOk(s, t, q, h, l + 1, l) && !s.nodes[q.preds[l]].marked
    case LockSucc(q, h, l) => LockOk(s, t, q, h, l + 1, l + 1) && !q.op.removing
    case Create(q, h) => LockOk(s, t, q, h, h, h) && !q.op.removing
    case Unlock(q, n, after) => SearchOk(s, q, 0) && Held(s, t, q, n) && AfterOk(s, t, q.op, after)
    case _ => true
  }

  ghost predicate ChangingOk(s: State, t: nat, pc: PC) {
    match pc
    case LinkNew(q, h, n, l) => LinkingOk(s, t, q, h, n, l) && l < h
    case LinkPred(q, h, n, l) => LinkingOk(s, t, q, h, n, l) && l < h && HasLayer(s, n, l) && s.nodes[n].skip[l] == q.succs[l]
    case LinkFlag(q, h, n) => LinkingOk(s, t, q, h, n, h)
    case CutRead(q, h, l) => CuttingOk(s, t, q, h, l)
    case CutWrite(q, h, l, next) => CuttingOk(s, t, q, h, l) && HasLayer(s, q.op.victim, l) && s.nodes[q.op.victim].skip[l] == next
    case _ => true
  }

  ghost predicate GrowingOk(s: State, t: nat, pc: PC) {
    match pc
    case GrowCreate(h, prev) =>
      IsNode(s, prev) && s.nodes[prev].rank == 0 && (prev == s.head || prev in s.retired) && s.nodes[prev].height < h
    case GrowLock(h, prev, n) => NewHeadOk(s, t, h, prev, n) && Blank(s, n)
    case GrowFlags(h, prev, n) => NewHeadOk(s, t, h, prev, n) && Blank(s, n) && HoldsLock(s, prev, t)
    case GrowCopy(h, prev, n, at) => NewHeadOk(s, t, h, prev, n) && HoldsLock(s, prev, t) && Copied(s, prev, n, at)
    case GrowSwap(h, prev, n) =>
      NewHeadOk(s, t, h, prev, n) && HoldsLock(s, prev, t) && Copied(s, prev, n, s.nodes[prev].height)
    case GrowMark(h, prev, n) => HoldsLock(s, prev, t) && prev in s.retired && s.retired[prev] == t
    case GrowUnlock(prev) => HoldsLock(s, prev, t)
    case _ => true
  }

  /** Where thread t is and what it knows, looked up only where PcParts is mentioned. */
  ghost predicate PcOk(s: State, t: nat, pc: PC) {
    forall x: PC | x == pc :: PcParts(s, t, x)
  }

  ghost predicate PcParts(s: State, t: nat, pc: PC) {
    FindOk(s, t, pc) && RemovingOk(s, t, pc) && LockingOk(s, t, pc) && ChangingOk(s, t, pc) && GrowingOk(s, t, pc)
  }

  ghost predicate AfterOk(s: State, t: nat, op: Op, after: After) {
    match after
    case Retry => OpOk(s, t, op)
    case Added => op.victim == 0
    case Removed => op.victim != 0 && HoldsLock(s, op.victim, t) && s.nodes[op.victim].rank == op.rank
  }

  ghost predicate Blank(s: State, n: nat) {
    IsNode(s, n) && !s.nodes[n].marked && !s.nodes[n].linked && forall l | 0 <= l < |s.nodes[n].skip| :: s.nodes[n].skip[l] == 0
  }

  /** A remove that has met its key. */
  ghost predicate RemoveOk(s: State, t: nat, q: Search) {
    SearchOk(s, q, 0) && OpOk(s, t, q.op) && q.op.removing && q.op.victim == 0 && q.found != 0
  }

  ghost predicate Removable(s: State, q: Search) {
    IsNode(s, q.found) && s.nodes[q.found].linked && s.nodes[q.found].height <= q.top + 1
  }

  ghost predicate ThreadsOk(s: State) {
    forall t | 0 <= t < |s.threads| :: PcOk(s, t, s.threads[t])
  }

  predicate InPreds(q: Search, k: nat, n: nat) { k <= |q.preds| && n in q.preds[..k] }

  predicate IsVictim(op: Op, n: nat) { op.victim != 0 && op.victim == n }

  /** The locks a thread has. */
  predicate Holds(pc: PC, n: nat) {
    match pc
    case FindMax(op) => IsVictim(op, n)
    case FindHead(op, _) => IsVictim(op, n)
    case Walk(q, _, _) => IsVictim(q.op, n)
    case RemoveCheck(q) => q.found == n
    case RemoveMark(q) => q.found == n
    case Lock(q, _, l) => IsVictim(q.op, n) || InPreds(q, l, n)
    case LockMarked(q, _, l) => IsVictim(q.op, n) || InPreds(q, l + 1, n)
    case LockSkip(q, _, l) => IsVictim(q.op, n) || InPreds(q, l + 1, n)
    case LockSucc(q, _, l) => IsVictim(q.op, n) || InPreds(q, l + 1, n)
    case Unlock(q, k, _) => IsVictim(q.op, n) || InPreds(q, k, n)
    case Create(q, h) => InPreds(q, h, n)
    case LinkNew(q, h, _, _) => InPreds(q, h, n)
    case LinkPred(q, h, _, _) => InPreds(q, h, n)
    case LinkFlag(q, h, _) => InPreds(q, h, n)
    case CutRead(q, h, _) => IsVictim(q.op, n) || InPreds(q, h, n)
    case CutWrite(q, h, _, _) => IsVictim(q.op, n) || InPreds(q, h, n)
    case FreeVictim(node) => node == n
    case GrowFlags(_, prev, _) => prev == n
    case GrowCopy(_, prev, _, _) => prev == n
    case GrowSwap(_, prev, _) => prev == n
    case GrowMark(_, prev, _) => prev == n
    case GrowUnlock(prev) => prev == n
    case _ => false
  }

  ghost predicate HolderAt(s: State, n: nat)
    requires IsNode(s, n)
  {
    s.nodes[n].holder.Some? ==>
      s.nodes[n].holder.value < |s.threads| && Holds(s.threads[s.nodes[n].holder.value], n)
  }

  ghost predicate HoldersOk(s: State) {
    forall n | IsNode(s, n) :: HolderAt(s, n)
  }

  /** A former head is marked, or about to be by the thread that replaced it and holds it. */
  ghost predicate RetiredAt(s: State, n: nat)
    requires n in s.retired
  {
    && IsNode(s, n) && s.nodes[n].rank == 0
    && (s.nodes[n].marked
        || (HoldsLock(s, n, s.retired[n]) && s.retired[n] < |s.threads| && s.threads[s.retired[n]].GrowMark?
            && s.threads[s.retired[n]].prev == n))
  }

  ghost predicate RetiredOk(s: State) {
    forall n | n in s.retired :: RetiredAt(s, n)
  }

  ghost predicate MakersOk(s: State) {
    forall n | n in s.maker :: IsNode(s, n)
  }

  ghost predicate Parts(s: State) {
    Struct(s) && ThreadsOk(s) && HoldersOk(s) && RetiredOk(s) && MakersOk(s)
  }

  /** The invariant, quantified so that its parts are looked up only where Parts is mentioned. */
  ghost predicate Inv(s: State) {
    forall x: State | x == s :: Parts(x)
  }

  /** What a step's own thread knows. */
  lemma Known(s: State, t: nat)
    requires Inv(s) && t < |s.threads|
    ensures PcParts(s, t, s.threads[t])
  {
    assert Parts(s);
    assert PcOk(s, t, s.threads[t]);
  }

  lemma Unfold(s: State, t: nat, pc: PC)
    requires PcOk(s, t, pc)
    ensures PcParts(s, t, pc)
  {
  }

  lemma Built(s: State)
    requires Inv(s)
    ensures Struct(s)
  {
    assert Parts(s);
  }

  lemma InitInv(s: State)
    requires Init(s)
    ensures Inv(s)
  {
    assert Parts(s);
  }

  // ----------------------------------------------------------------- frame facts

  /** Not linked at layer l yet, and seen by nobody but its maker there. */
  ghost predicate Unlinked(s: State, n: nat, l: nat)
    requires IsNode(s, n)
  {
    if s.nodes[n].rank == 0 then n != s.head && n !in s.retired
    else !s.nodes[n].marked && !InLayer(s, n, l)
  }

  predicate Made(s: State, n: nat, t: nat) { n in s.maker && s.maker[n] == t }

  ghost predicate NodeGentle(s: State, s': State, t: nat, n: nat)
    requires IsNode(s, n) && IsNode(s', n)
  {
    var x, y := s.nodes[n], s'.nodes[n];
    && y.rank == x.rank && y.height == x.height && |y.skip| == |x.skip|
    && (x.marked ==> y.marked) && (x.linked ==> y.linked)
    && (y.marked && !x.marked ==> if x.rank == 0 then (x.holder == Some(t) && n in s.retired) || (Made(s, n, t) && Unlinked(s, n, 0))
                                  else x.holder == Some(t) && x.linked)
    && (y.linked && !x.linked ==> Made(s, n, t))
    && (x.holder.Some? && x.holder.value != t ==> y.holder == x.holder)
    && (forall l | 0 <= l < |x.skip| && y.skip[l] != x.skip[l] ::
          (x.holder == Some(t) && !x.marked && (n == s.head || InLayer(s, n, l))) || (Made(s, n, t) && Unlinked(s, n, l)))
  }

  ghost predicate LayerGentle(s: State, s': State, t: nat, l: nat)
    requires l < |s.chain| <= |s'.chain|
  {
    && (forall n | n in s.chain[l] && IsNode(s, n) ::
          n in s'.chain[l] || (s.nodes[n].marked && s.nodes[n].holder == Some(t)))
    && (forall n | n in s'.chain[l] :: n in s.chain[l] || (Made(s, n, t) && IsNode(s, n) && !s.nodes[n].marked))
  }

  /** A step of thread t as the others see it. */
  ghost predicate Gentle(s: State, s': State, t: nat) {
    && |s.nodes| <= |s'.nodes| && |s.chain| <= |s'.chain|
    && (forall n | IsNode(s, n) :: NodeGentle(s, s', t, n))
    && (forall l | 0 <= l < |s.chain| :: LayerGentle(s, s', t, l))
    && (forall l | |s.chain| <= l < |s'.chain| :: s'.chain[l] == [])
    && (s'.head == s.head || (s.head in s'.retired && Made(s, s'.head, t) && s'.nodes == s.nodes))
    && (forall n | n in s.retired :: n in s'.retired && s'.retired[n] == s.retired[n])
    && (forall n | n in s'.retired :: n in s.retired || n == s.head)
    && (forall n | n in s.maker :: n in s'.maker && s'.maker[n] == s.maker[n])
  }

  /** The same, looked up only where Gentle is mentioned. */
  ghost predicate Softly(s: State, s': State, t: nat) {
    forall x: State | x == s :: Gentle(x, s', t)
  }

  lemma InOrGoneKept(s: State, s': State, t: nat, n: nat, l: nat)
    requires Gentle(s, s', t) && InOrGone(s, n, l)
    ensures InOrGone(s', n, l)
  {
    assert NodeGentle(s, s', t, n);
    if InLayer(s, n, l) {
      assert LayerGentle(s, s', t, l);
    }
  }

  lemma PredKept(s: State, s': State, t: nat, n: nat, l: nat)
    requires Gentle(s, s', t) && PredOk(s, n, l)
    ensures PredOk(s', n, l) && s'.nodes[n].rank == s.nodes[n].rank
  {
    assert NodeGentle(s, s', t, n);
    if s.nodes[n].rank > 0 {
      InOrGoneKept(s, s', t, n, l);
    }
  }

  lemma InLayersKept(s: State, s': State, t: nat, n: nat, h: nat)
    requires Gentle(s, s', t) && IsNode(s, n) && InLayers(s, n, h) && (s.nodes[n].marked ==> s.nodes[n].holder != Some(t))
    ensures InLayers(s', n, h)
  {
    forall l | 0 <= l < h ensures InLayer(s', n, l) {
      assert InLayer(s, n, l);
      assert LayerGentle(s, s', t, l);
    }
  }

  lemma OpKept(s: State, s': State, t: nat, u: nat, op: Op)
    requires Gentle(s, s', t) && u != t && OpOk(s, u, op)
    ensures OpOk(s', u, op)
  {
    if op.victim != 0 {
      assert NodeGentle(s, s', t, op.victim);
      InLayersKept(s, s', t, op.victim, s.nodes[op.victim].height);
    }
  }

  lemma FoundKept(s: State, s': State, t: nat, q: Search, l: nat)
    requires Gentle(s, s', t) && l < |q.preds| && l < |q.succs| && LayerFound(s, q, l)
    ensures LayerFound(s', q, l)
  {
    PredKept(s, s', t, q.preds[l], l);
    if q.succs[l] != 0 {
      assert NodeGentle(s, s', t, q.succs[l]);
    }
    if l + 1 < |q.preds| {
      assert NodeGentle(s, s', t, q.preds[l + 1]);
    }
  }

  lemma SearchKept(s: State, s': State, t: nat, q: Search, lo: nat)
    requires Gentle(s, s', t) && SearchOk(s, q, lo)
    ensures SearchOk(s', q, lo)
  {
    forall l | lo <= l <= q.top ensures LayerFound(s', q, l) {
      FoundKept(s, s', t, q, l);
    }
    if q.found != 0 {
      assert NodeGentle(s, s', t, q.found);
    }
    if q.op.victim != 0 {
      assert NodeGentle(s, s', t, q.op.victim);
    }
  }

  lemma HeldKept(s: State, s': State, t: nat, u: nat, q: Search, k: nat)
    requires Gentle(s, s', t) && u != t && Held(s, u, q, k)
    ensures Held(s', u, q, k)
  {
    forall l | 0 <= l < k ensures HoldsLock(s', q.preds[l], u) {
      assert HoldsLock(s, q.preds[l], u);
      assert NodeGentle(s, s', t, q.preds[l]);
    }
  }

  /** What a lock protects: its node's mark and its pointers where it is linked. */
  lemma ValidKept(s: State, s': State, t: nat, u: nat, q: Search, l: nat)
    requires Gentle(s, s', t) && u != t && l < |q.preds| && l < |q.succs|
    requires HoldsLock(s, q.preds[l], u) && PredOk(s, q.preds[l], l) && ValidAt(s, q, l)
    ensures ValidAt(s', q, l)
  {
    assert NodeGentle(s, s', t, q.preds[l]);
  }

  lemma ValidatedKept(s: State, s': State, t: nat, u: nat, q: Search, lo: nat, k: nat)
    requires Gentle(s, s', t) && u != t && SearchOk(s, q, 0) && Held(s, u, q, k) && Validated(s, q, lo, k)
    ensures Validated(s', q, lo, k)
  {
    forall l | lo <= l < k ensures ValidAt(s', q, l) {
      assert ValidAt(s, q, l) && HoldsLock(s, q.preds[l], u) && LayerFound(s, q, l);
      ValidKept(s, s', t, u, q, l);
    }
  }

  lemma LockKept(s: State, s': State, t: nat, u: nat, q: Search, h: nat, k: nat, v: nat)
    requires Gentle(s, s', t) && u != t && LockOk(s, u, q, h, k, v)
    ensures LockOk(s', u, q, h, k, v)
  {
    SearchKept(s, s', t, q, 0);
    OpKept(s, s', t, u, q.op);
    HeldKept(s, s', t, u, q, k);
    ValidatedKept(s, s', t, u, q, 0, v);
    if q.op.victim != 0 {
      assert NodeGentle(s, s', t, q.op.victim);
    }
  }

  lemma NewKept(s: State, s': State, t: nat, u: nat, q: Search, h: nat, n: nat, l: nat)
    requires HeadOk(s) && Gentle(s, s', t) && u != t && NewOk(s, u, q, h, n, l) && s.nodes[n].rank > 0
    ensures NewOk(s', u, q, h, n, l)
    ensures forall j | l <= j < |s.nodes[n].skip| && j < h :: s'.nodes[n].skip[j] == s.nodes[n].skip[j]
  {
    assert NodeGentle(s, s', t, n);
    InLayersKept(s, s', t, n, l);
    forall j | l <= j < h ensures !InLayer(s', n, j) {
      assert !InLayer(s, n, j);
      if j < |s.chain| {
        assert LayerGentle(s, s', t, j);
      }
    }
  }

  lemma LinkingKept(s: State, s': State, t: nat, u: nat, q: Search, h: nat, n: nat, l: nat)
    requires HeadOk(s) && Gentle(s, s', t) && u != t && LinkingOk(s, u, q, h, n, l)
    ensures LinkingOk(s', u, q, h, n, l)
    ensures forall j | l <= j < |s.nodes[n].skip| && j < h :: s'.nodes[n].skip[j] == s.nodes[n].skip[j]
  {
    SearchKept(s, s', t, q, 0);
    OpKept(s, s', t, u, q.op);
    HeldKept(s, s', t, u, q, h);
    ValidatedKept(s, s', t, u, q, l, h);
    NewKept(s, s', t, u, q, h, n, l);
  }

  lemma CuttingKept(s: State, s': State, t: nat, u: nat, q: Search, h: nat, l: nat)
    requires Gentle(s, s', t) && u != t && CuttingOk(s, u, q, h, l)
    ensures CuttingOk(s', u, q, h, l)
    ensures HasLayer(s, q.op.victim, l) ==> HasLayer(s', q.op.victim, l) && s'.nodes[q.op.victim].skip[l] == s.nodes[q.op.victim].skip[l]
  {
    SearchKept(s, s', t, q, 0);
    HeldKept(s, s', t, u, q, h);
    ValidatedKept(s, s', t, u, q, 0, l + 1);
    assert NodeGentle(s, s', t, q.op.victim);
    InLayersKept(s, s', t, q.op.victim, l + 1);
    assert InLayer(s, q.op.victim, l);
    forall j | l < j < h ensures !InLayer(s', q.op.victim, j) {
      assert !InLayer(s, q.op.victim, j);
      if j < |s.chain| {
        assert LayerGentle(s, s', t, j);
      }
    }
  }

  lemma LayerNode(s: State, n: nat, l: nat)
    requires LayersOk(s) && InLayer(s, n, l)
    ensures IsNode(s, n) && s.nodes[n].rank > 0 && l < s.nodes[n].height
  {
    assert LayerAt(s.nodes, s.head, s.chain[l], l);
    var i :| 0 <= i < |s.chain[l]| && s.chain[l][i] == n;
    assert LinkAt(s.nodes, s.chain[l], l, i);
  }

  /** Nobody else touches the pointers of a head being made, or of one that is held. */
  lemma HeadPointersKept(s: State, s': State, t: nat, u: nat, n: nat)
    requires LayersOk(s) && Gentle(s, s', t) && u != t && IsNode(s, n) && s.nodes[n].rank == 0
    requires (HoldsLock(s, n, u) && (n == s.head || n in s.retired)) || (Made(s, n, u) && n != s.head)
    ensures s'.nodes[n].skip == s.nodes[n].skip
  {
    assert NodeGentle(s, s', t, n);
    forall l | 0 <= l < |s.nodes[n].skip| ensures s'.nodes[n].skip[l] == s.nodes[n].skip[l] {
      if InLayer(s, n, l) {
        LayerNode(s, n, l);
      }
    }
  }

  lemma NewHeadKept(s: State, s': State, t: nat, u: nat, h: nat, prev: nat, n: nat)
    requires LayersOk(s) && Gentle(s, s', t) && u != t && NewHeadOk(s, u, h, prev, n)
    ensures NewHeadOk(s', u, h, prev, n) && s'.nodes[n].skip == s.nodes[n].skip
    ensures HoldsLock(s, prev, u) ==> HoldsLock(s', prev, u)
  {
    assert NodeGentle(s, s', t, n) && NodeGentle(s, s', t, prev);
    HeadPointersKept(s, s', t, u, n);
  }

  lemma CopiedKept(s: State, s': State, t: nat, u: nat, h: nat, prev: nat, n: nat, at: nat)
    requires LayersOk(s) && Gentle(s, s', t) && u != t && NewHeadOk(s, u, h, prev, n) && HoldsLock(s, prev, u) && Copied(s, prev, n, at)
    ensures Copied(s', prev, n, at)
  {
    assert NodeGentle(s, s', t, n) && NodeGentle(s, s', t, prev);
    HeadPointersKept(s, s', t, u, n);
    HeadPointersKept(s, s', t, u, prev);
  }

  lemma RemoveKept(s: State, s': State, t: nat, u: nat, q: Search)
    requires Gentle(s, s', t) && u != t && RemoveOk(s, u, q)
    ensures RemoveOk(s', u, q) && (Removable(s, q) ==> Removable(s', q))
    ensures HoldsLock(s, q.found, u) ==> HoldsLock(s', q.found, u) && s'.nodes[q.found].marked == s.nodes[q.found].marked
  {
    SearchKept(s, s', t, q, 0);
    OpKept(s, s', t, u, q.op);
    assert NodeGentle(s, s', t, q.found);
  }

  lemma OtherFinding(s: State, s': State, t: nat, u: nat, pc: PC)
    requires Gentle(s, s', t) && u != t && FindOk(s, u, pc)
    ensures FindOk(s', u, pc)
  {
    match pc
    case Walk(q, at, pred) =>
      SearchKept(s, s', t, q, at + 1);
      OpKept(s, s', t, u, q.op);
      PredKept(s, s', t, pred, at);
      assert at < q.top ==> NodeGentle(s, s', t, q.preds[at + 1]);
    case FindMax(op) => OpKept(s, s', t, u, op);
    case FindHead(op, top) =>
      OpKept(s, s', t, u, op);
      assert op.victim != 0 ==> NodeGentle(s, s', t, op.victim);
    case AddFound(op, node) => OpKept(s, s', t, u, op); assert NodeGentle(s, s', t, node);
    case AddWait(op, node) => OpKept(s, s', t, u, op); assert NodeGentle(s, s', t, node);
    case Choose(q) =>
      SearchKept(s, s', t, q, 0);
      OpKept(s, s', t, u, q.op);
    case Seek(k) => SeekKept(s, s', t, k);
    case _ =>
  }

  lemma SeekKept(s: State, s': State, t: nat, k: Seeking)
    requires Gentle(s, s', t) && SeekOk(s, k)
    ensures SeekOk(s', k)
  {
    match k
    case SeekDown(r, ht, pred) =>
      assert NodeGentle(s, s', t, pred);
      if ht > 0 {
        PredKept(s, s', t, pred, ht - 1);
      }
    case SeekLoad(r, l, pred) => PredKept(s, s', t, pred, l);
    case SeekRight(r, l, pred, node) =>
      PredKept(s, s', t, pred, l);
      if node != 0 {
        InOrGoneKept(s, s', t, node, l);
        assert NodeGentle(s, s', t, node);
      }
    case SeekMarked(_, node) => assert NodeGentle(s, s', t, node);
    case SeekEnd(_, node) => assert node != 0 ==> NodeGentle(s, s', t, node);
    case _ =>
  }

  lemma OtherRemoving(s: State, s': State, t: nat, u: nat, pc: PC)
    requires Gentle(s, s', t) && u != t && RemovingOk(s, u, pc)
    ensures RemovingOk(s', u, pc)
  {
    match pc
    case RemoveLinked(q) => RemoveKept(s, s', t, u, q);
    case RemoveMarked(q) => RemoveKept(s, s', t, u, q);
    case RemoveLock(q) => RemoveKept(s, s', t, u, q);
    case RemoveCheck(q) => RemoveKept(s, s', t, u, q);
    case RemoveMark(q) => RemoveKept(s, s', t, u, q);
    case FreeVictim(n) => assert NodeGentle(s, s', t, n);
    case _ =>
  }

  lemma UnlockKept(s: State, s': State, t: nat, u: nat, q: Search, n: nat, after: After)
    requires Gentle(s, s', t) && u != t && SearchOk(s, q, 0) && Held(s, u, q, n) && AfterOk(s, u, q.op, after)
    ensures SearchOk(s', q, 0) && Held(s', u, q, n) && AfterOk(s', u, q.op, after)
  {
    SearchKept(s, s', t, q, 0);
    HeldKept(s, s', t, u, q, n);
    if after == Retry {
      OpKept(s, s', t, u, q.op);
    } else if after == Removed {
      assert NodeGentle(s, s', t, q.op.victim);
    }
  }

  lemma SkipKept(s: State, s': State, t: nat, u: nat, q: Search, h: nat, l: nat)
    requires Gentle(s, s', t) && u != t && LockOk(s, u, q, h, l + 1, l) && !s.nodes[q.preds[l]].marked
    ensures LockOk(s', u, q, h, l + 1, l) && !s'.nodes[q.preds[l]].marked
  {
    LockKept(s, s', t, u, q, h, l + 1, l);
    assert HoldsLock(s, q.preds[l], u) && LayerFound(s, q, l);
    assert NodeGentle(s, s', t, q.preds[l]);
  }

  lemma OtherLocking(s: State, s': State, t: nat, u: nat, pc: PC)
    requires Gentle(s, s', t) && u != t && LockingOk(s, u, pc)
    ensures LockingOk(s', u, pc)
  {
    match pc
    case Lock(q, h, l) => LockKept(s, s', t, u, q, h, l, l);
    case LockMarked(q, h, l) => LockKept(s, s', t, u, q, h, l + 1, l);
    case LockSkip(q, h, l) => SkipKept(s, s', t, u, q, h, l);
    case LockSucc(q, h, l) => LockKept(s, s', t, u, q, h, l + 1, l + 1);
    case Create(q, h) => LockKept(s, s', t, u, q, h, h, h);
    case Unlock(q, n, after) => UnlockKept(s, s', t, u, q, n, after);
    case _ =>
  }

  lemma OtherChanging(s: State, s': State, t: nat, u: nat, pc: PC)
    requires HeadOk(s) && Gentle(s, s', t) && u != t && ChangingOk(s, u, pc)
    ensures ChangingOk(s', u, pc)
  {
    match pc
    case LinkNew(q, h, n, l) => LinkingKept(s, s', t, u, q, h, n, l);
    case LinkPred(q, h, n, l) =>
      LinkingKept(s, s', t, u, q, h, n, l);
      assert NodeGentle(s, s', t, n);
    case LinkFlag(q, h, n) => LinkingKept(s, s', t, u, q, h, n, h);
    case CutRead(q, h, l) => CuttingKept(s, s', t, u, q, h, l);
    case CutWrite(q, h, l, next) => CuttingKept(s, s', t, u, q, h, l);
    case _ =>
  }

  lemma OtherGrowing(s: State, s': State, t: nat, u: nat, pc: PC)
    requires LayersOk(s) && Gentle(s, s', t) && u != t && GrowingOk(s, u, pc)
    ensures GrowingOk(s', u, pc)
  {
    match pc
    case GrowCreate(h, prev) => assert NodeGentle(s, s', t, prev);
    case GrowLock(h, prev, n) => NewHeadKept(s, s', t, u, h, prev, n);
    case GrowFlags(h, prev, n) => NewHeadKept(s, s', t, u, h, prev, n);
    case GrowCopy(h, prev, n, at) =>
      NewHeadKept(s, s', t, u, h, prev, n);
      CopiedKept(s, s', t, u, h, prev, n, at);
    case GrowSwap(h, prev, n) =>
      NewHeadKept(s, s', t, u, h, prev, n);
      CopiedKept(s, s', t, u, h, prev, n, s.nodes[prev].height);
      assert NodeGentle(s, s', t, prev);
    case GrowMark(h, prev, n) => assert NodeGentle(s, s', t, prev);
    case GrowUnlock(prev) => assert NodeGentle(s, s', t, prev);
    case _ =>
  }

  lemma OtherThread(s: State, s': State, t: nat, u: nat, pc: PC)
    requires Struct(s) && Gentle(s, s', t) && u != t && PcOk(s, u, pc)
    ensures PcOk(s', u, pc)
  {
    Unfold(s, u, pc);
    OtherFinding(s, s', t, u, pc);
    OtherRemoving(s, s', t, u, pc);
    OtherLocking(s, s', t, u, pc);
    OtherChanging(s, s', t, u, pc);
    OtherGrowing(s, s', t, u, pc);
  }

  /** A lock is thread t's rightly, or it is as it was. */
  ghost predicate LockFrom(s: State, s': State, t: nat, n: nat)
    requires IsNode(s', n)
  {
    || s'.nodes[n].holder == None
    || (s'.nodes[n].holder == Some(t) && t < |s'.threads| && Holds(s'.threads[t], n))
    || (s'.nodes[n].holder != Some(t) && IsNode(s, n) && s'.nodes[n].holder == s.nodes[n].holder)
  }

  ghost predicate OthersStay(s: State, s': State, t: nat) {
    t < |s.threads| == |s'.threads| && forall u | 0 <= u < |s.threads| && u != t :: s'.threads[u] == s.threads[u]
  }

  /** What is left to show of a step once its own effects are known. */
  lemma StepKept(s: State, s': State, t: nat)
    requires Inv(s) && Gentle(s, s', t) && OthersStay(s, s', t) && PcOk(s', t, s'.threads[t])
    requires forall n: nat | IsNode(s', n) :: LockFrom(s, s', t, n)
    requires forall n | n in s'.retired && (n !in s.retired || s.retired[n] == t) :: RetiredAt(s', n)
    requires forall n | n in s'.maker :: IsNode(s', n)
    ensures ThreadsOk(s') && HoldersOk(s') && RetiredOk(s') && MakersOk(s') && Softly(s, s', t)
  {
    assert Parts(s);
    forall u | 0 <= u < |s'.threads| ensures PcOk(s', u, s'.threads[u]) {
      if u != t {
        assert PcOk(s, u, s.threads[u]);
        OtherThread(s, s', t, u, s.threads[u]);
      }
    }
    forall n: nat | IsNode(s', n) ensures HolderAt(s', n) {
      HolderKept(s, s', t, n);
    }
    forall n | n in s'.retired ensures RetiredAt(s', n) {
      if n in s.retired && s.retired[n] != t {
        assert RetiredAt(s, n) && NodeGentle(s, s', t, n);
      }
    }
  }

  lemma HolderKept(s: State, s': State, t: nat, n: nat)
    requires HoldersOk(s) && Gentle(s, s', t) && OthersStay(s, s', t) && IsNode(s', n)
    requires LockFrom(s, s', t, n)
    ensures HolderAt(s', n)
  {
    if IsNode(s, n) {
      assert NodeGentle(s, s', t, n) && HolderAt(s, n);
    }
  }

  // ------------------------------------------------------------------ local steps

  /** Thread positions do not matter to the rest. */
  predicate SameShared(s: State, s': State) {
    s'.nodes == s.nodes && s'.head == s.head && s'.chain == s.chain && s'.retired == s.retired && s'.maker == s.maker
  }

  lemma SamePc(s: State, s': State, t: nat, pc: PC)
    requires Struct(s) && SameShared(s, s') && PcOk(s, t, pc)
    ensures PcOk(s', t, pc)
  {
    assert Gentle(s, s', t + 1);
    OtherThread(s, s', t + 1, t, pc);
  }

  lemma SameStruct(s: State, s': State)
    requires Struct(s) && SameShared(s, s')
    ensures Struct(s')
  {
    forall n: nat | IsNode(s', n) ensures NodeAt(s', n) && LinkedAt(s', n) {
      assert NodeAt(s, n) && LinkedAt(s, n);
      forall l | 0 <= l < s'.nodes[n].height ensures PtrOk(s', n, l) {
        assert PtrOk(s, n, l);
      }
      forall l | 0 <= l < s'.nodes[n].height ensures InLayer(s', n, l) == InLayer(s, n, l) {}
    }
    forall l | 0 < l < |s'.chain| ensures NestedAt(s', l) {
      assert NestedAt(s, l);
    }
  }

  /** Only the thread's position changes. */
  lemma LocalStep(s: State, s': State, t: nat, pc: PC)
    requires Inv(s) && t < |s.threads| && s' == Goto(s, t, pc) && PcOk(s, t, pc) && !s.threads[t].GrowMark?
    requires forall n: nat | Holds(s.threads[t], n) :: Holds(pc, n)
    ensures Inv(s') && Softly(s, s', t)
  {
    assert Parts(s);
    SamePc(s, s', t, pc);
    SameStruct(s, s');
    forall n: nat | IsNode(s', n) ensures LockFrom(s, s', t, n) {
      assert HolderAt(s, n);
    }
    forall n | n in s'.retired && (n !in s.retired || s.retired[n] == t) ensures RetiredAt(s', n) {
      assert RetiredAt(s, n);
    }
    assert Gentle(s, s', t);
    StepKept(s, s', t);
  }

  /** A node linked at one layer is, or was, linked at the layer below. */
  lemma PredBelow(s: State, n: nat, l: nat)
    requires Struct(s) && PredOk(s, n, l + 1)
    ensures PredOk(s, n, l)
  {
    if s.nodes[n].rank > 0 && InLayer(s, n, l + 1) {
      assert NestedAt(s, l + 1);
    }
  }

  lemma RecordOk(s: State, q: Search, at: nat, pred: nat, node: nat)
    requires SearchOk(s, q, at + 1) && at <= q.top && PredOk(s, pred, at) && s.nodes[pred].rank < q.op.rank
    requires at < q.top ==> Falls(s, pred, q.preds[at + 1])
    requires node == 0 || (IsNode(s, node) && s.nodes[node].rank >= q.op.rank)
    requires node < |s.nodes|
    ensures SearchOk(s, Record(s, q, at, pred, node), at)
  {
    var r := Record(s, q, at, pred, node);
    forall l | at <= l <= q.top ensures LayerFound(s, r, l) {
      assert l > at ==> LayerFound(s, q, l);
    }
  }

  lemma FindMaxStep(s: State, s': State, t: nat)
    requires Inv(s) && t < |s.threads| && StepFindMax(s, s', t)
    ensures Inv(s') && Softly(s, s', t)
  {
    Built(s);
    var op := s.threads[t].op;
    Known(s, t);
    if op.victim != 0 {
      var l := s.nodes[op.victim].height;
      assert NodeAt(s, op.victim);
      assert InLayer(s, op.victim, l - 1);
    }
    LocalStep(s, s', t, s'.threads[t]);
  }

  lemma FindHeadStep(s: State, s': State, t: nat)
    requires Inv(s) && t < |s.threads| && StepFindHead(s, s', t)
    ensures Inv(s') && Softly(s, s', t)
  {
    Built(s);
    Known(s, t);
    LocalStep(s, s', t, s'.threads[t]);
  }

  lemma WalkStep(s: State, s': State, t: nat)
    requires Inv(s) && t < |s.threads| && StepWalk(s, s', t)
    ensures Inv(s') && Softly(s, s', t)
  {
    Built(s);
    var pc := s.threads[t];
    Known(s, t);
    var node := s.nodes[pc.pred].skip[pc.at];
    assert NodeAt(s, pc.pred) && PtrOk(s, pc.pred, pc.at);
    if node != 0 && s.nodes[node].rank < pc.q.op.rank {
      LocalStep(s, s', t, Walk(pc.q, pc.at, node));
    } else {
      WalkDown(s, s', t, pc.q, pc.at, pc.pred, node);
    }
  }

  lemma WalkDown(s: State, s': State, t: nat, p: Search, at: nat, pred: nat, node: nat)
    requires Inv(s) && Struct(s) && t < |s.threads| && s.threads[t] == Walk(p, at, pred) && FindOk(s, t, s.threads[t])
    requires node < |s.nodes| && (node == 0 || s.nodes[node].rank >= p.op.rank)
    requires s' == Goto(s, t, if at > 0 then Walk(Record(s, p, at, pred, node), at - 1, pred)
                              else Found(s, Record(s, p, at, pred, node)))
    ensures Inv(s') && Softly(s, s', t)
  {
    RecordOk(s, p, at, pred, node);
    var q := Record(s, p, at, pred, node);
    if at > 0 {
      PredBelow(s, pred, at - 1);
      LocalStep(s, s', t, Walk(q, at - 1, pred));
    } else {
      FoundStep(s, s', t, q);
    }
  }

  lemma FoundStep(s: State, s': State, t: nat, q: Search)
    requires Inv(s) && t < |s.threads| && s.threads[t].Walk? && s.threads[t].q.op == q.op
    requires SearchOk(s, q, 0) && OpOk(s, t, q.op) && s' == Goto(s, t, Found(s, q))
    ensures Inv(s') && Softly(s, s', t)
  {
    Built(s);
    if q.op.victim != 0 {
      assert NodeAt(s, q.op.victim);
    }
    LocalStep(s, s', t, Found(s, q));
  }

  /** Loads that decide about a node met. */
  lemma MetStep(s: State, s': State, t: nat)
    requires Inv(s) && t < |s.threads|
    requires StepAddFound(s, s', t) || StepRemoveLinked(s, s', t) || StepRemoveMarked(s, s', t) || StepRemoveCheck(s, s', t)
    ensures Inv(s') && Softly(s, s', t)
  {
    Known(s, t);
    LocalStep(s, s', t, s'.threads[t]);
  }

  lemma AddWaitStep(s: State, s': State, t: nat)
    requires Inv(s) && t < |s.threads| && StepAddWait(s, s', t)
    ensures Inv(s') && Softly(s, s', t)
  {
    if s' != s {
      LocalStep(s, s', t, Idle);
    } else {
      assert Gentle(s, s', t);
    }
  }

  lemma ChooseStep(s: State, s': State, t: nat, h: nat)
    requires Inv(s) && t < |s.threads| && StepChoose(s, s', t, h)
    ensures Inv(s') && Softly(s, s', t)
  {
    Known(s, t);
    LocalStep(s, s', t, s'.threads[t]);
  }

  lemma LockMarkedStep(s: State, s': State, t: nat)
    requires Inv(s) && t < |s.threads| && StepLockMarked(s, s', t)
    ensures Inv(s') && Softly(s, s', t)
  {
    Known(s, t);
    LocalStep(s, s', t, s'.threads[t]);
  }

  /** One more layer found valid. */
  lemma ValidatedMore(s: State, q: Search, l: nat)
    requires Validated(s, q, 0, l) && l < |q.preds| && l < |q.succs| && ValidAt(s, q, l)
    ensures Validated(s, q, 0, l + 1)
  {
    forall j | 0 <= j < l + 1 ensures ValidAt(s, q, j) {
      assert j < l ==> ValidAt(s, q, j);
    }
  }

  lemma LockNextStep(s: State, s': State, t: nat, q: Search, h: nat, l: nat)
    requires Inv(s) && t < |s.threads| && s' == Goto(s, t, LockNext(q, h, l)) && LockOk(s, t, q, h, l + 1, l + 1)
    requires s.threads[t] == LockSkip(q, h, l) || s.threads[t] == LockSucc(q, h, l)
    ensures Inv(s') && Softly(s, s', t)
  {
    LockNextOk(s, t, q, h, l);
    LocalStep(s, s', t, LockNext(q, h, l));
  }

  lemma LockNextOk(s: State, t: nat, q: Search, h: nat, l: nat)
    requires LockOk(s, t, q, h, l + 1, l + 1)
    ensures PcOk(s, t, LockNext(q, h, l))
    ensures forall m: nat | Holds(LockSkip(q, h, l), m) :: Holds(LockNext(q, h, l), m)
  {
    if l + 1 == h && q.op.removing {
      assert CuttingOk(s, t, q, h, l);
    }
  }

  lemma LockSkipStep(s: State, s': State, t: nat)
    requires Inv(s) && t < |s.threads| && StepLockSkip(s, s', t)
    ensures Inv(s') && Softly(s, s', t)
  {
    var pc := s.threads[t];
    Known(s, t);
    if s.nodes[pc.q.preds[pc.at]].skip[pc.at] != pc.q.succs[pc.at] {
      LocalStep(s, s', t, Unlock(pc.q, pc.at + 1, Retry));
    } else {
      ValidatedMore(s, pc.q, pc.at);
      if pc.q.op.removing {
        LockNextStep(s, s', t, pc.q, pc.h, pc.at);
      } else {
        LocalStep(s, s', t, LockSucc(pc.q, pc.h, pc.at));
      }
    }
  }

  lemma LockSuccStep(s: State, s': State, t: nat)
    requires Inv(s) && t < |s.threads| && StepLockSucc(s, s', t)
    ensures Inv(s') && Softly(s, s', t)
  {
    var pc := s.threads[t];
    Known(s, t);
    if pc.q.succs[pc.at] != 0 && s.nodes[pc.q.succs[pc.at]].marked {
      LocalStep(s, s', t, Unlock(pc.q, pc.at + 1, Retry));
    } else {
      LockNextStep(s, s', t, pc.q, pc.h, pc.at);
    }
  }

  lemma CutReadStep(s: State, s': State, t: nat)
    requires Inv(s) && t < |s.threads| && StepCutRead(s, s', t)
    ensures Inv(s') && Softly(s, s', t)
  {
    Known(s, t);
    LocalStep(s, s', t, s'.threads[t]);
  }

  lemma GrowLocalStep(s: State, s': State, t: nat)
    requires Inv(s) && t < |s.threads| && (StepGrowStart(s, s', t) || StepGrowLoad(s, s', t))
    ensures Inv(s') && Softly(s, s', t)
  {
    Built(s);
    LocalStep(s, s', t, s'.threads[t]);
  }

  lemma SwapFails(s: State, s': State, t: nat)
    requires Inv(s) && t < |s.threads| && StepGrowSwap(s, s', t) && s.head != s.threads[t].prev
    ensures Inv(s') && Softly(s, s', t)
  {
    Known(s, t);
    LocalStep(s, s', t, s'.threads[t]);
  }

  lemma StartStep(s: State, s': State, t: nat, rank: nat)
    requires Inv(s) && t < |s.threads| && StepStart(s, s', t, rank)
    ensures Inv(s') && Softly(s, s', t)
  {
    LocalStep(s, s', t, s'.threads[t]);
  }

  lemma SeekStep(s: State, s': State, t: nat)
    requires Inv(s) && t < |s.threads| && StepSeek(s, s', t)
    ensures Inv(s') && Softly(s, s', t)
  {
    Known(s, t);
    Built(s);
    if s.threads[t].k.SeekEnd? {
      LocalStep(s, s', t, Idle);
    } else {
      SeekGoesOn(s, s.threads[t].k);
      LocalStep(s, s', t, Seek(SeekNext(s, s.threads[t].k)));
    }
  }

  lemma SeekGoesOn(s: State, k: Seeking)
    requires Struct(s) && SeekOk(s, k)
    ensures SeekFits(s, k) && SeekOk(s, SeekNext(s, k))
  {
    match k
    case SeekDown(_, ht, pred) =>
      if ht > 0 {
        assert NodeAt(s, pred) && PtrOk(s, pred, ht - 1);
      }
      if ht > 1 {
        PredBelow(s, pred, ht - 2);
      }
    case SeekLoad(_, l, pred) => assert NodeAt(s, pred) && PtrOk(s, pred, l);
    case SeekRight(_, l, pred, node) =>
      if node != 0 {
        assert NodeAt(s, node) && PtrOk(s, node, l);
      }
      if l > 0 {
        PredBelow(s, pred, l - 1);
      }
    case _ =>
  }

  // -------------------------------------------------------------- locks and flags

  /** Node n's flags or lock change. */
  ghost predicate Flagged(s: State, s': State, n: nat) {
    && IsNode(s, n) && |s'.nodes| == |s.nodes| && s'.nodes == s.nodes[n := s'.nodes[n]]
    && s'.nodes[n].rank == s.nodes[n].rank && s'.nodes[n].height == s.nodes[n].height && s'.nodes[n].skip == s.nodes[n].skip
    && (s.nodes[n].marked ==> s'.nodes[n].marked)
    && s'.head == s.head && s'.chain == s.chain && s'.retired == s.retired && s'.maker == s.maker
  }

  lemma FlagStruct(s: State, s': State, n: nat)
    requires Struct(s) && Flagged(s, s', n) && (n == s.head ==> !s'.nodes[n].marked) && LinkedAt(s', n)
    ensures Struct(s')
  {
    forall m: nat | IsNode(s', m) ensures NodeAt(s', m) && LinkedAt(s', m) {
      assert NodeAt(s, m) && LinkedAt(s, m);
      forall l | 0 <= l < s'.nodes[m].height ensures PtrOk(s', m, l) {
        assert PtrOk(s, m, l);
      }
      forall l | 0 <= l < s'.nodes[m].height ensures InLayer(s', m, l) == InLayer(s, m, l) {}
    }
    FlagLayers(s, s', n);
  }

  lemma FlagLayers(s: State, s': State, n: nat)
    requires LayersOk(s) && Nested(s) && Flagged(s, s', n)
    ensures LayersOk(s') && Nested(s')
  {
    forall l | 0 <= l < |s'.chain| ensures LayerAt(s'.nodes, s'.head, s'.chain[l], l) {
      assert LayerAt(s.nodes, s.head, s.chain[l], l);
      forall i | 0 <= i < |s.chain[l]| ensures LinkAt(s'.nodes, s'.chain[l], l, i) {
        assert LinkAt(s.nodes, s.chain[l], l, i);
      }
    }
    forall l | 0 < l < |s'.chain| ensures NestedAt(s', l) {
      assert NestedAt(s, l);
    }
  }

  /** The threads' side of such a step. */
  lemma FlagStep(s: State, s': State, t: nat, n: nat)
    requires Inv(s) && Flagged(s, s', n) && OthersStay(s, s', t) && NodeGentle(s, s', t, n)
    requires (n == s.head ==> !s'.nodes[n].marked) && LinkedAt(s', n)
    requires PcOk(s', t, s'.threads[t]) && LockFrom(s, s', t, n)
    requires s.threads[t].GrowMark? ==> s.threads[t].prev == n && s'.nodes[n].marked
    requires forall m: nat | m != n && Holds(s.threads[t], m) :: Holds(s'.threads[t], m)
    ensures Inv(s') && Softly(s, s', t)
  {
    assert Parts(s);
    FlagStruct(s, s', n);
    assert Gentle(s, s', t);
    forall m: nat | IsNode(s', m) ensures LockFrom(s, s', t, m) {
      assert HolderAt(s, m);
    }
    forall m | m in s'.retired && (m !in s.retired || s.retired[m] == t) ensures RetiredAt(s', m) {
      assert RetiredAt(s, m);
    }
    StepKept(s, s', t);
  }

  /** A lock is acquired. */
  lemma AcquireStep(s: State, s': State, t: nat, n: nat, pc: PC)
    requires Inv(s) && t < |s.threads| && IsNode(s, n) && s.nodes[n].holder == None && s' == Goto(Acquire(s, n, t), t, pc)
    requires PcOk(s', t, pc) && Holds(pc, n) && !s.threads[t].GrowMark?
    requires forall m: nat | Holds(s.threads[t], m) :: Holds(pc, m)
    ensures Inv(s') && Softly(s, s', t)
  {
    Built(s);
    assert LinkedAt(s, n);
    forall l | 0 <= l < s.nodes[n].height ensures InLayer(s', n, l) == InLayer(s, n, l) {}
    FlagStep(s, s', t, n);
  }

  /** Acquiring keeps what the thread knew. */
  lemma AcquireKeeps(s: State, s': State, t: nat, n: nat, pc: PC)
    requires Struct(s) && IsNode(s, n) && s.nodes[n].holder == None && Flagged(s, s', n)
    requires s'.nodes[n] == s.nodes[n].(holder := Some(t)) && PcOk(s, t, pc)
    ensures PcOk(s', t, pc)
  {
    assert Gentle(s, s', t + 1);
    OtherThread(s, s', t + 1, t, pc);
  }

  lemma RemoveLockStep(s: State, s': State, t: nat)
    requires Inv(s) && t < |s.threads| && StepRemoveLock(s, s', t)
    ensures Inv(s') && Softly(s, s', t)
  {
    Built(s);
    var q := s.threads[t].q;
    Known(s, t);
    AcquireKeeps(s, s', t, q.found, RemoveLock(q));
    Unfold(s', t, RemoveLock(q));
    AcquireStep(s, s', t, q.found, RemoveCheck(q));
  }

  lemma HeldMore(s: State, t: nat, q: Search, l: nat)
    requires Held(s, t, q, l) && l < |q.preds| && HoldsLock(s, q.preds[l], t)
    ensures Held(s, t, q, l + 1)
  {
  }

  lemma LockStep(s: State, s': State, t: nat)
    requires Inv(s) && t < |s.threads| && StepLock(s, s', t)
    ensures Inv(s') && Softly(s, s', t)
  {
    var pc := s.threads[t];
    Known(s, t);
    if Shared(pc.q, pc.at) {
      LockShared(s, s', t, pc.q, pc.h, pc.at);
    } else {
      LockFree(s, s', t, pc.q, pc.h, pc.at);
    }
  }

  lemma LockShared(s: State, s': State, t: nat, q: Search, h: nat, l: nat)
    requires Inv(s) && t < |s.threads| && s.threads[t] == Lock(q, h, l) && LockOk(s, t, q, h, l, l) && l < h && Shared(q, l)
    requires s' == Goto(s, t, LockMarked(q, h, l))
    ensures Inv(s') && Softly(s, s', t)
  {
    assert HoldsLock(s, q.preds[l - 1], t);
    HeldMore(s, t, q, l);
    SharedPreds(q, l);
    LocalStep(s, s', t, LockMarked(q, h, l));
  }

  lemma LockFree(s: State, s': State, t: nat, q: Search, h: nat, l: nat)
    requires Inv(s) && t < |s.threads| && s.threads[t] == Lock(q, h, l) && LockOk(s, t, q, h, l, l) && l < h
    requires IsNode(s, q.preds[l]) && s.nodes[q.preds[l]].holder == None
    requires s' == Goto(Acquire(s, q.preds[l], t), t, LockMarked(q, h, l))
    ensures Inv(s') && Softly(s, s', t)
  {
    Built(s);
    AcquireKeeps(s, s', t, q.preds[l], Lock(q, h, l));
    Unfold(s', t, Lock(q, h, l));
    HeldMore(s', t, q, l);
    InMore(q, l);
    AcquireStep(s, s', t, q.preds[l], LockMarked(q, h, l));
  }

  lemma InMore(q: Search, l: nat)
    requires l < |q.preds|
    ensures forall n: nat | InPreds(q, l, n) :: InPreds(q, l + 1, n)
    ensures InPreds(q, l + 1, q.preds[l])
  {
    assert q.preds[..l + 1] == q.preds[..l] + [q.preds[l]];
  }

  lemma SharedPreds(q: Search, l: nat)
    requires Shared(q, l)
    ensures forall n: nat :: InPreds(q, l, n) <==> InPreds(q, l + 1, n)
  {
    assert q.preds[..l + 1] == q.preds[..l] + [q.preds[l]];
    assert q.preds[..l][l - 1] == q.preds[l];
  }

  lemma GrowLockStep(s: State, s': State, t: nat)
    requires Inv(s) && t < |s.threads| && StepGrowLock(s, s', t)
    ensures Inv(s') && Softly(s, s', t)
  {
    Built(s);
    var pc := s.threads[t];
    Known(s, t);
    AcquireKeeps(s, s', t, pc.prev, pc);
    AcquireStep(s, s', t, pc.prev, GrowFlags(pc.h, pc.prev, pc.node));
  }

  lemma {:induction false} RanksFall(s: State, q: Search, j: nat, k: nat)
    requires SearchOk(s, q, 0) && j <= k <= q.top
    ensures Falls(s, q.preds[j], q.preds[k])
    decreases k
  {
    assert LayerFound(s, q, j);
    if j < k {
      RanksFall(s, q, j, k - 1);
      assert LayerFound(s, q, k - 1);
    }
  }

  /** The node released last is not needed any more. */
  lemma ReleaseKeeps(s: State, s': State, t: nat, q: Search, n: nat, after: After)
    requires Struct(s) && PcOk(s, t, Unlock(q, n, after)) && 0 < n <= |q.preds| && !Shared(q, n - 1)
    requires Flagged(s, s', q.preds[n - 1]) && s'.nodes[q.preds[n - 1]] == s.nodes[q.preds[n - 1]].(holder := None)
    requires NodeGentle(s, s', t, q.preds[n - 1])
    ensures PcOk(s', t, Unlock(q, n - 1, after))
  {
    Unfold(s, t, Unlock(q, n, after));
    var x := q.preds[n - 1];
    assert LayerFound(s, q, n - 1);
    assert Gentle(s, s', t);
    SearchKept(s, s', t, q, 0);
    forall l | 0 <= l < n - 1 ensures HoldsLock(s', q.preds[l], t) {
      assert HoldsLock(s, q.preds[l], t);
      RanksFall(s, q, l, n - 2);
      assert LayerFound(s, q, n - 2);
    }
    if after == Retry && q.op.victim != 0 {
      forall l | 0 <= l < s.nodes[q.op.victim].height ensures InLayer(s', q.op.victim, l) {
        assert InLayer(s, q.op.victim, l);
      }
    }
  }

  lemma InLess(q: Search, n: nat)
    requires 0 < n <= |q.preds|
    ensures forall m: nat | InPreds(q, n, m) && m != q.preds[n - 1] :: InPreds(q, n - 1, m)
  {
    assert q.preds[..n] == q.preds[..n - 1] + [q.preds[n - 1]];
  }

  lemma ReleaseStep(s: State, s': State, t: nat, n: nat, pc: PC)
    requires Inv(s) && t < |s.threads| && HoldsLock(s, n, t) && s' == Goto(Release(s, n), t, pc)
    requires PcOk(s', t, pc) && !s.threads[t].GrowMark?
    requires forall m: nat | m != n && Holds(s.threads[t], m) :: Holds(pc, m)
    ensures Inv(s') && Softly(s, s', t)
  {
    Built(s);
    assert LinkedAt(s, n);
    forall l | 0 <= l < s.nodes[n].height ensures InLayer(s', n, l) == InLayer(s, n, l) {}
    FlagStep(s, s', t, n);
  }

  lemma UnlockStep(s: State, s': State, t: nat)
    requires Inv(s) && t < |s.threads| && StepUnlock(s, s', t)
    ensures Inv(s') && Softly(s, s', t)
  {
    var pc := s.threads[t];
    var q, n := pc.q, pc.n;
    Known(s, t);
    if n == 0 {
      UnlockedStep(s, s', t);
    } else if Shared(q, n - 1) {
      SharedPreds(q, n - 1);
      LocalStep(s, s', t, Unlock(q, n - 1, pc.after));
    } else {
      GuardStep(s, s', t, q, n, pc.after);
    }
  }

  lemma UnlockedStep(s: State, s': State, t: nat)
    requires Inv(s) && t < |s.threads| && StepUnlock(s, s', t) && s.threads[t].n == 0
    ensures Inv(s') && Softly(s, s', t)
  {
    Known(s, t);
    LocalStep(s, s', t, s'.threads[t]);
  }

  lemma GuardStep(s: State, s': State, t: nat, q: Search, n: nat, after: After)
    requires Inv(s) && t < |s.threads| && s.threads[t] == Unlock(q, n, after) && 0 < n <= |q.preds| && !Shared(q, n - 1)
    requires IsNode(s, q.preds[n - 1]) && s' == Goto(Release(s, q.preds[n - 1]), t, Unlock(q, n - 1, after))
    ensures Inv(s') && Softly(s, s', t)
  {
    Built(s);
    Known(s, t);
    assert HoldsLock(s, q.preds[n - 1], t);
    InLess(q, n);
    ReleaseKeeps(s, s', t, q, n, after);
    ReleaseStep(s, s', t, q.preds[n - 1], Unlock(q, n - 1, after));
  }

  lemma LastReleaseStep(s: State, s': State, t: nat)
    requires Inv(s) && t < |s.threads| && (StepFreeVictim(s, s', t) || StepGrowUnlock(s, s', t))
    ensures Inv(s') && Softly(s, s', t)
  {
    var pc := s.threads[t];
    Known(s, t);
    ReleaseStep(s, s', t, if pc.FreeVictim? then pc.node else pc.prev, Idle);
  }

  lemma RemoveMarkStep(s: State, s': State, t: nat)
    requires Inv(s) && t < |s.threads| && StepRemoveMark(s, s', t)
    ensures Inv(s') && Softly(s, s', t)
  {
    Built(s);
    var q := s.threads[t].q;
    var v := q.found;
    var q' := q.(op := q.op.(victim := v));
    Known(s, t);
    assert LinkedAt(s, v) && NodeAt(s, v);
    assert NodeGentle(s, s', t, v);
    assert Gentle(s, s', t);
    SearchKept(s, s', t, q, 0);
    forall l | 0 <= l <= q.top ensures LayerFound(s', q', l) {
      assert LayerFound(s', q, l);
    }
    forall l | 0 <= l < s.nodes[v].height ensures InLayer(s', v, l) {
      assert InLayer(s, v, l);
    }
    FlagStep(s, s', t, v);
  }

  lemma LinkFlagStep(s: State, s': State, t: nat)
    requires Inv(s) && t < |s.threads| && StepLinkFlag(s, s', t)
    ensures Inv(s') && Softly(s, s', t)
  {
    assert Parts(s);
    Built(s);
    var pc := s.threads[t];
    Known(s, t);
    assert NodeGentle(s, s', t, pc.node);
    assert Gentle(s, s', t);
    SearchKept(s, s', t, pc.q, 0);
    forall l | 0 <= l < pc.h ensures HoldsLock(s', pc.q.preds[l], t) {
      assert HoldsLock(s, pc.q.preds[l], t);
    }
    forall l | 0 <= l < pc.h ensures InLayer(s', pc.node, l) {
      assert InLayer(s, pc.node, l);
    }
    FlagStep(s, s', t, pc.node);
  }

  lemma GrowFlagsStep(s: State, s': State, t: nat)
    requires Inv(s) && t < |s.threads| && StepGrowFlags(s, s', t)
    ensures Inv(s') && Softly(s, s', t)
  {
    assert Parts(s);
    Built(s);
    var pc := s.threads[t];
    Known(s, t);
    assert NodeAt(s, pc.node) && NodeAt(s, pc.prev) && HolderAt(s, pc.node);
    assert NodeGentle(s, s', t, pc.node);
    FlagStep(s, s', t, pc.node);
  }

  lemma GrowMarkStep(s: State, s': State, t: nat)
    requires Inv(s) && t < |s.threads| && StepGrowMark(s, s', t)
    ensures Inv(s') && Softly(s, s', t)
  {
    assert Parts(s);
    Built(s);
    var pc := s.threads[t];
    Known(s, t);
    assert RetiredAt(s, pc.prev);
    assert NodeGentle(s, s', t, pc.prev);
    FlagStep(s, s', t, pc.prev);
  }

  // -------------------------------------------------------------------- new nodes

  ghost predicate Created(s: State, s': State, t: nat, x: Node) {
    && s'.nodes == s.nodes + [x] && s'.maker == s.maker[|s.nodes| := t]
    && s'.head == s.head && s'.chain == s.chain && s'.retired == s.retired
  }

  lemma CreateStruct(s: State, s': State, t: nat, rank: nat, h: nat)
    requires Struct(s) && Created(s, s', t, NewNode(rank, h)) && h > 0
    ensures Struct(s')
  {
    forall m: nat | IsNode(s', m) ensures NodeAt(s', m) && LinkedAt(s', m) {
      if IsNode(s, m) {
        assert NodeAt(s, m) && LinkedAt(s, m);
        forall l | 0 <= l < s'.nodes[m].height ensures PtrOk(s', m, l) {
          assert PtrOk(s, m, l);
        }
        forall l | 0 <= l < s'.nodes[m].height ensures InLayer(s', m, l) == InLayer(s, m, l) {}
      }
    }
    forall l | 0 <= l < |s'.chain| ensures LayerAt(s'.nodes, s'.head, s'.chain[l], l) {
      assert LayerAt(s.nodes, s.head, s.chain[l], l);
      forall i | 0 <= i < |s.chain[l]| ensures LinkAt(s'.nodes, s'.chain[l], l, i) {
        assert LinkAt(s.nodes, s.chain[l], l, i);
      }
    }
    forall l | 0 < l < |s'.chain| ensures NestedAt(s', l) {
      assert NestedAt(s, l);
    }
  }

  lemma MakeStep(s: State, s': State, t: nat, rank: nat, h: nat)
    requires Inv(s) && Created(s, s', t, NewNode(rank, h)) && h > 0 && OthersStay(s, s', t) && PcOk(s', t, s'.threads[t])
    requires !s.threads[t].GrowMark? && forall m: nat | Holds(s.threads[t], m) :: Holds(s'.threads[t], m)
    ensures Inv(s') && Softly(s, s', t)
  {
    assert Parts(s);
    CreateStruct(s, s', t, rank, h);
    CreateGentle(s, s', t, NewNode(rank, h), t);
    forall m: nat | IsNode(s', m) ensures LockFrom(s, s', t, m) {
      assert IsNode(s, m) ==> HolderAt(s, m);
    }
    forall m | m in s'.retired && (m !in s.retired || s.retired[m] == t) ensures RetiredAt(s', m) {
      assert RetiredAt(s, m);
    }
    StepKept(s, s', t);
  }

  lemma CreateGentle(s: State, s': State, t: nat, x: Node, u: nat)
    requires MakersOk(s) && Created(s, s', t, x)
    ensures Gentle(s, s', u)
  {
    forall n | n in s.maker ensures n in s'.maker && s'.maker[n] == s.maker[n] {
      assert IsNode(s, n);
    }
  }

  lemma CreateStep(s: State, s': State, t: nat)
    requires Inv(s) && t < |s.threads| && StepCreate(s, s', t)
    ensures Inv(s') && Softly(s, s', t)
  {
    assert Parts(s);
    Built(s);
    var pc := s.threads[t];
    var n := |s.nodes|;
    Known(s, t);
    CreateGentle(s, s', t, NewNode(pc.q.op.rank, pc.h), t + 1);
    assert PcOk(s, t, pc);
    OtherThread(s, s', t + 1, t, pc);
    Unfold(s', t, pc);
    forall j | 0 <= j < pc.h ensures !InLayer(s', n, j) {
      if InLayer(s', n, j) {
        LayerNode(s, n, j);
      }
    }
    MakeStep(s, s', t, pc.q.op.rank, pc.h);
  }

  lemma GrowCreateStep(s: State, s': State, t: nat)
    requires Inv(s) && t < |s.threads| && StepGrowCreate(s, s', t)
    ensures Inv(s') && Softly(s, s', t)
  {
    assert Parts(s);
    Built(s);
    var pc := s.threads[t];
    Known(s, t);
    forall m | m in s.retired ensures m != |s.nodes| {
      assert RetiredAt(s, m);
    }
    MakeStep(s, s', t, 0, pc.h);
  }

  // --------------------------------------------------- pointers nobody else can see

  ghost predicate Pointed(s: State, s': State, n: nat, l: nat, m: nat) {
    && HasLayer(s, n, l) && |s'.nodes| == |s.nodes|
    && s'.nodes == s.nodes[n := s.nodes[n].(skip := s.nodes[n].skip[l := m])]
    && s'.head == s.head && s'.retired == s.retired && s'.maker == s.maker
  }

  lemma PrivateStruct(s: State, s': State, n: nat, l: nat, m: nat)
    requires Struct(s) && Pointed(s, s', n, l, m) && s'.chain == s.chain && n != s.head && !InLayer(s, n, l)
    requires m == 0 || (InOrGone(s, m, l) && s.nodes[m].rank > s.nodes[n].rank)
    ensures Struct(s')
  {
    forall k: nat | IsNode(s', k) ensures NodeAt(s', k) && LinkedAt(s', k) {
      assert NodeAt(s, k) && LinkedAt(s, k);
      forall j | 0 <= j < s'.nodes[k].height ensures PtrOk(s', k, j) {
        assert PtrOk(s, k, j);
      }
      forall j | 0 <= j < s'.nodes[k].height ensures InLayer(s', k, j) == InLayer(s, k, j) {}
    }
    forall j | 0 <= j < |s'.chain| ensures LayerAt(s'.nodes, s'.head, s'.chain[j], j) {
      assert LayerAt(s.nodes, s.head, s.chain[j], j);
      forall i | 0 <= i < |s.chain[j]| ensures LinkAt(s'.nodes, s'.chain[j], j, i) {
        assert LinkAt(s.nodes, s.chain[j], j, i);
        assert j == l ==> s.chain[j][i] != n;
      }
    }
    forall j | 0 < j < |s'.chain| ensures NestedAt(s', j) {
      assert NestedAt(s, j);
    }
  }

  lemma PrivateStep(s: State, s': State, t: nat, n: nat, l: nat, m: nat)
    requires Inv(s) && Pointed(s, s', n, l, m) && s'.chain == s.chain && Made(s, n, t) && Unlinked(s, n, l) && n != s.head && !InLayer(s, n, l)
    requires m == 0 || (InOrGone(s, m, l) && s.nodes[m].rank > s.nodes[n].rank)
    requires OthersStay(s, s', t) && PcOk(s', t, s'.threads[t]) && !s.threads[t].GrowMark?
    requires forall k: nat | Holds(s.threads[t], k) :: Holds(s'.threads[t], k)
    ensures Inv(s') && Softly(s, s', t)
  {
    assert Parts(s);
    PrivateStruct(s, s', n, l, m);
    assert Gentle(s, s', t);
    forall k: nat | IsNode(s', k) ensures LockFrom(s, s', t, k) {
      assert HolderAt(s, k);
    }
    forall k | k in s'.retired && (k !in s.retired || s.retired[k] == t) ensures RetiredAt(s', k) {
      assert RetiredAt(s, k);
    }
    StepKept(s, s', t);
  }

  /** A validated predecessor's pointer leads to the successor. */
  lemma SuccLinked(s: State, q: Search, l: nat)
    requires Struct(s) && SearchOk(s, q, 0) && l <= q.top && ValidAt(s, q, l)
    ensures q.succs[l] == 0 || (InOrGone(s, q.succs[l], l) && s.nodes[q.succs[l]].rank > s.nodes[q.preds[l]].rank)
  {
    assert NodeAt(s, q.preds[l]) && PtrOk(s, q.preds[l], l);
  }

  /** Writing pointers of node n at layer l leaves other validated layers alone. */
  lemma ValidElsewhere(s: State, s': State, q: Search, n: nat, l: nat, m: nat, lo: nat, k: nat)
    requires Pointed(s, s', n, l, m) && Validated(s, q, lo, k) && forall j | lo <= j < k :: j != l || q.preds[j] != n
    ensures Validated(s', q, lo, k)
  {
    forall j | lo <= j < k ensures ValidAt(s', q, j) {
      assert ValidAt(s, q, j);
    }
  }

  lemma HeldStays(s: State, s': State, t: nat, q: Search, n: nat, l: nat, m: nat, k: nat)
    requires Pointed(s, s', n, l, m) && Held(s, t, q, k)
    ensures Held(s', t, q, k)
  {
    forall j | 0 <= j < k ensures HoldsLock(s', q.preds[j], t) {
      assert HoldsLock(s, q.preds[j], t);
    }
  }

  lemma LinkNewStep(s: State, s': State, t: nat)
    requires Inv(s) && t < |s.threads| && StepLinkNew(s, s', t)
    ensures Inv(s') && Softly(s, s', t)
  {
    Built(s);
    var pc := s.threads[t];
    var q, n, l := pc.q, pc.node, pc.at;
    Known(s, t);
    assert ValidAt(s, q, l) && LayerFound(s, q, l) && !InLayer(s, n, l);
    SuccLinked(s, q, l);
    LinkNewKeeps(s, s', t, q, pc.h, n, l);
    PrivateStep(s, s', t, n, l, q.succs[l]);
  }

  lemma LinkNewKeeps(s: State, s': State, t: nat, q: Search, h: nat, n: nat, l: nat)
    requires Struct(s) && LinkingOk(s, t, q, h, n, l) && l < h && Pointed(s, s', n, l, q.succs[l]) && s'.chain == s.chain
    ensures PcOk(s', t, LinkPred(q, h, n, l))
  {
    assert NodeAt(s, n) && !InLayer(s, n, l);
    assert Made(s, n, t) && Unlinked(s, n, l) && NodeGentle(s, s', t, n);
    assert Gentle(s, s', t);
    SearchKept(s, s', t, q, 0);
    forall j | l <= j < h ensures q.preds[j] != n {
      assert LayerFound(s, q, j);
    }
    ValidElsewhere(s, s', q, n, l, q.succs[l], l, h);
    HeldStays(s, s', t, q, n, l, q.succs[l], h);
    forall j | 0 <= j < h ensures InLayer(s', n, j) == InLayer(s, n, j) {}
  }

  lemma GrowCopyStep(s: State, s': State, t: nat)
    requires Inv(s) && t < |s.threads| && StepGrowCopy(s, s', t)
    ensures Inv(s') && Softly(s, s', t)
  {
    Built(s);
    var pc := s.threads[t];
    Known(s, t);
    assert NodeAt(s, pc.prev) && NodeAt(s, pc.node);
    if pc.at < s.nodes[pc.prev].height {
      CopyOne(s, s', t, pc.h, pc.prev, pc.node, pc.at);
    } else {
      CopyDone(s, s', t, pc.h, pc.prev, pc.node, pc.at);
    }
  }

  lemma CopyDone(s: State, s': State, t: nat, h: nat, prev: nat, n: nat, at: nat)
    requires Inv(s) && t < |s.threads| && s.threads[t] == GrowCopy(h, prev, n, at) && GrowingOk(s, t, s.threads[t])
    requires at >= s.nodes[prev].height == |s.nodes[prev].skip| && s' == Goto(s, t, GrowSwap(h, prev, n))
    ensures Inv(s') && Softly(s, s', t)
  {
    LocalStep(s, s', t, GrowSwap(h, prev, n));
  }

  lemma CopyOne(s: State, s': State, t: nat, h: nat, prev: nat, n: nat, at: nat)
    requires Inv(s) && t < |s.threads| && s.threads[t] == GrowCopy(h, prev, n, at) && PcOk(s, t, s.threads[t])
    requires HasLayer(s, prev, at) && HasLayer(s, n, at) && NodeAt(s, prev)
    requires s' == Goto(SetSkip(s, n, at, s.nodes[prev].skip[at]), t, GrowCopy(h, prev, n, at + 1))
    ensures Inv(s') && Softly(s, s', t)
  {
    Unfold(s, t, s.threads[t]);
    Built(s);
    assert PtrOk(s, prev, at);
    if InLayer(s, n, at) {
      LayerNode(s, n, at);
    }
    assert PcOk(s', t, GrowCopy(h, prev, n, at + 1));
    PrivateStep(s, s', t, n, at, s.nodes[prev].skip[at]);
  }

  // ------------------------------------------------------------- changing a layer

  lemma {:induction false} RanksRise(nodes: seq<Node>, head: nat, c: seq<nat>, l: nat, i: nat, j: nat)
    requires LayerAt(nodes, head, c, l) && i <= j < |c|
    ensures c[i] < |nodes| && c[j] < |nodes| && nodes[c[i]].rank <= nodes[c[j]].rank && (i < j ==> nodes[c[i]].rank < nodes[c[j]].rank)
    decreases j
  {
    assert LinkAt(nodes, c, l, j);
    if i < j {
      RanksRise(nodes, head, c, l, i, j - 1);
      assert LinkAt(nodes, c, l, j - 1);
    }
  }

  lemma {:induction false} BelowIs(nodes: seq<Node>, c: seq<nat>, r: nat, k: nat)
    requires k <= |c| && (forall j | 0 <= j < k :: c[j] < |nodes| && nodes[c[j]].rank < r)
    requires k < |c| ==> c[k] < |nodes| && nodes[c[k]].rank >= r
    ensures Below(nodes, c, r) == k
    decreases |c|
  {
    if k > 0 {
      BelowIs(nodes, c[1..], r, k - 1);
    }
  }

  /** Where a validated predecessor stands in its layer. */
  lemma BelowPred(nodes: seq<Node>, head: nat, c: seq<nat>, l: nat, pred: nat, r: nat) returns (k: nat)
    requires LayerAt(nodes, head, c, l) && (pred == head || pred in c) && pred < |nodes| && l < |nodes[pred].skip|
    requires nodes[head].rank == 0 && nodes[pred].rank < r
    requires var m := nodes[pred].skip[l]; m == 0 || (m < |nodes| && nodes[m].rank >= r)
    ensures k <= |c| && Below(nodes, c, r) == k
    ensures if k == 0 then pred == head else c[k - 1] == pred
    ensures nodes[pred].skip[l] == if k < |c| then c[k] else 0
    ensures forall j | 0 <= j < k :: c[j] < |nodes| && nodes[c[j]].rank < r
    ensures k < |c| ==> 0 < c[k] < |nodes|
  {
    if pred == head {
      k := 0;
    } else {
      var i :| 0 <= i < |c| && c[i] == pred;
      k := i + 1;
      assert LinkAt(nodes, c, l, i);
    }
    forall j | 0 <= j < k ensures c[j] < |nodes| && nodes[c[j]].rank < r {
      RanksRise(nodes, head, c, l, j, k - 1);
    }
    if k < |c| {
      assert LinkAt(nodes, c, l, k);
    }
    BelowIs(nodes, c, r, k);
  }

  /** A validated and locked predecessor is linked. */
  lemma PredLinked(s: State, t: nat, q: Search, l: nat)
    requires Inv(s) && t < |s.threads| && !s.threads[t].GrowMark? && SearchOk(s, q, 0) && l <= q.top
    requires HoldsLock(s, q.preds[l], t) && ValidAt(s, q, l)
    ensures q.preds[l] == s.head || InLayer(s, q.preds[l], l)
  {
    assert Parts(s);
    assert LayerFound(s, q, l);
  }

  /** The layer with the new node in it. */
  lemma EnterLayer(nodes: seq<Node>, nodes': seq<Node>, head: nat, c: seq<nat>, l: nat, k: nat, pred: nat, n: nat)
    requires LayerAt(nodes, head, c, l) && k <= |c| && 0 < n < |nodes| && pred < |nodes| && pred != n && n != head
    requires nodes[head].rank == 0
    requires if k == 0 then pred == head else c[k - 1] == pred
    requires l < nodes[n].height && l < |nodes[n].skip| && nodes[n].skip[l] == (if k < |c| then c[k] else 0)
    requires nodes[n].rank > 0 && n !in c && (k > 0 ==> nodes[pred].rank < nodes[n].rank)
    requires k < |c| ==> c[k] < |nodes| && nodes[n].rank < nodes[c[k]].rank
    requires l < |nodes[pred].skip| && nodes' == nodes[pred := nodes[pred].(skip := nodes[pred].skip[l := n])]
    ensures LayerAt(nodes', head, c[..k] + [n] + c[k..], l)
  {
    var c' := c[..k] + [n] + c[k..];
    if k > 0 {
      assert LinkAt(nodes, c, l, k - 1);
      assert c'[0] == c[0];
    }
    forall i | 0 <= i < |c'| ensures LinkAt(nodes', c', l, i) {
      if i < k {
        assert LinkAt(nodes, c, l, i);
        if i < k - 1 {
          RanksRise(nodes, head, c, l, i, k - 1);
        }
      } else if i > k {
        assert LinkAt(nodes, c, l, i - 1);
        if k > 0 {
          RanksRise(nodes, head, c, l, k - 1, i - 1);
        }
      }
    }
  }

  /** The layer without the k-th node. */
  lemma LeaveLayer(nodes: seq<Node>, nodes': seq<Node>, head: nat, c: seq<nat>, l: nat, k: nat, pred: nat)
    requires LayerAt(nodes, head, c, l) && k < |c| && pred < |nodes| && nodes[head].rank == 0
    requires if k == 0 then pred == head else c[k - 1] == pred
    requires l < |nodes[pred].skip|
    requires nodes' == nodes[pred := nodes[pred].(skip := nodes[pred].skip[l := if k + 1 < |c| then c[k + 1] else 0])]
    ensures LayerAt(nodes', head, c[..k] + c[k + 1..], l)
  {
    var c' := c[..k] + c[k + 1..];
    if k > 0 {
      assert LinkAt(nodes, c, l, k - 1);
      assert c'[0] == c[0];
    }
    assert k == 0 && |c| > 1 ==> c'[0] == c[1];
    forall i | 0 <= i < |c'| ensures LinkAt(nodes', c', l, i) {
      if i < k {
        assert LinkAt(nodes, c, l, i);
        if i < k - 1 {
          RanksRise(nodes, head, c, l, i, k - 1);
        } else if k + 1 < |c| {
          RanksRise(nodes, head, c, l, k - 1, k + 1);
        }
      } else {
        assert LinkAt(nodes, c, l, i + 1);
        if k > 0 {
          RanksRise(nodes, head, c, l, k - 1, i + 1);
        }
      }
    }
  }

  /** The other layers do not see a write at layer l. */
  lemma OtherLayer(s: State, s': State, n: nat, l: nat, m: nat, j: nat)
    requires LayersOk(s) && Pointed(s, s', n, l, m) && j != l && j < |s.chain|
    ensures LayerAt(s'.nodes, s'.head, s.chain[j], j)
  {
    assert LayerAt(s.nodes, s.head, s.chain[j], j);
    forall i | 0 <= i < |s.chain[j]| ensures LinkAt(s'.nodes, s.chain[j], j, i) {
      assert LinkAt(s.nodes, s.chain[j], j, i);
    }
  }

  // ----------------------------------------------------------------- linking a node

  /** Layer l gains n, or loses it. */
  ghost predicate Rechained(s: State, s': State, l: nat) {
    l < |s.chain| == |s'.chain| && forall j | 0 <= j < |s.chain| && j != l :: s'.chain[j] == s.chain[j]
  }

  ghost predicate Gains(c: seq<nat>, c': seq<nat>, n: nat) {
    forall m :: m in c' <==> m in c || m == n
  }

  lemma GainsAt(c: seq<nat>, k: nat, n: nat)
    requires k <= |c|
    ensures Gains(c, c[..k] + [n] + c[k..], n)
  {
    assert c == c[..k] + c[k..];
  }

  lemma EnterStruct(s: State, s': State, pred: nat, n: nat, l: nat)
    requires Struct(s) && Pointed(s, s', pred, l, n) && Rechained(s, s', l) && Gains(s.chain[l], s'.chain[l], n)
    requires LayerAt(s'.nodes, s'.head, s'.chain[l], l) && IsNode(s, n) && s.nodes[n].rank > s.nodes[pred].rank
    requires l < s.nodes[n].height && (l > 0 ==> InLayer(s, n, l - 1))
    ensures Struct(s')
  {
    forall j | 0 <= j < |s'.chain| ensures LayerAt(s'.nodes, s'.head, s'.chain[j], j) {
      if j != l {
        OtherLayer(s, s', pred, l, n, j);
      }
    }
    forall j | 0 < j < |s'.chain| ensures NestedAt(s', j) {
      assert NestedAt(s, j);
    }
    forall m: nat, j: nat | InLayer(s, m, j) ensures InLayer(s', m, j) {
    }
    forall m: nat | IsNode(s', m) ensures NodeAt(s', m) && LinkedAt(s', m) {
      assert NodeAt(s, m) && LinkedAt(s, m);
      forall j | 0 <= j < s'.nodes[m].height ensures PtrOk(s', m, j) {
        assert PtrOk(s, m, j);
      }
    }
  }

  lemma LinkPredStep(s: State, s': State, t: nat)
    requires Inv(s) && t < |s.threads| && StepLinkPred(s, s', t)
    ensures Inv(s') && Softly(s, s', t)
  {
    var pc := s.threads[t];
    Known(s, t);
    LinkChange(s, s', t, pc.q, pc.h, pc.node, pc.at);
  }

  lemma LinkChange(s: State, s': State, t: nat, q: Search, h: nat, n: nat, l: nat)
    requires Inv(s) && t < |s.threads| && s.threads[t] == LinkPred(q, h, n, l) && ChangingOk(s, t, s.threads[t])
    requires HasLayer(s, q.preds[l], l) && l < |s.chain| && SameShared(Enter(SetSkip(s, q.preds[l], l, n), l, n), s')
    requires OthersStay(s, s', t) && s'.threads[t] == if l + 1 < h then LinkNew(q, h, n, l + 1) else LinkFlag(q, h, n)
    ensures Inv(s') && Softly(s, s', t)
  {
    LinkPredShared(s, s', t, q, h, n, l);
    LinkNext(s', t, q, h, n, l);
    ChangeStep(s, s', t);
  }

  lemma LinkNext(s: State, t: nat, q: Search, h: nat, n: nat, l: nat)
    requires LinkingOk(s, t, q, h, n, l + 1) && l < h
    ensures var pc := if l + 1 < h then LinkNew(q, h, n, l + 1) else LinkFlag(q, h, n);
            PcOk(s, t, pc) && forall m: nat | Holds(LinkPred(q, h, n, l), m) :: Holds(pc, m)
  {
  }

  lemma LinkPredShared(s: State, s': State, t: nat, q: Search, h: nat, n: nat, l: nat)
    requires Inv(s) && t < |s.threads| && s.threads[t] == LinkPred(q, h, n, l) && ChangingOk(s, t, s.threads[t])
    requires HasLayer(s, q.preds[l], l) && l < |s.chain| && SameShared(Enter(SetSkip(s, q.preds[l], l, n), l, n), s')
    ensures Struct(s') && Gentle(s, s', t) && LinkingOk(s', t, q, h, n, l + 1)
    ensures |s'.nodes| == |s.nodes| && forall m: nat | IsNode(s, m) :: s'.nodes[m].holder == s.nodes[m].holder
  {
    Built(s);
    var pred := q.preds[l];
    assert ValidAt(s, q, l) && LayerFound(s, q, l) && HoldsLock(s, pred, t) && !InLayer(s, n, l);
    PredLinked(s, t, q, l);
    LinkPredLayer(s, s', t, q, n, l);
    assert l > 0 ==> InLayer(s, n, l - 1);
    EnterStruct(s, s', pred, n, l);
    LinkPredGentle(s, s', t, pred, n, l);
    LinkPredKeeps(s, s', t, q, h, n, l);
  }

  lemma LinkPredLayer(s: State, s': State, t: nat, q: Search, n: nat, l: nat)
    requires Struct(s) && SearchOk(s, q, 0) && l <= q.top && q.found == 0 && l < |s.chain|
    requires ValidAt(s, q, l) && (q.preds[l] == s.head || InLayer(s, q.preds[l], l))
    requires HasLayer(s, n, l) && s.nodes[n].rank == q.op.rank && s.nodes[n].skip[l] == q.succs[l] && !InLayer(s, n, l)
    requires SameShared(Enter(SetSkip(s, q.preds[l], l, n), l, n), s')
    ensures Pointed(s, s', q.preds[l], l, n) && Rechained(s, s', l) && Gains(s.chain[l], s'.chain[l], n)
    ensures LayerAt(s'.nodes, s'.head, s'.chain[l], l)
  {
    var pred, c := q.preds[l], s.chain[l];
    var mid := SetSkip(s, pred, l, n);
    assert LayerFound(s, q, l) && LayerAt(s.nodes, s.head, c, l);
    var k := BelowPred(s.nodes, s.head, c, l, pred, q.op.rank);
    SameBelow(s.nodes, mid.nodes, c, q.op.rank);
    GainsAt(c, k, n);
    EnterLayer(s.nodes, mid.nodes, s.head, c, l, k, pred, n);
  }

  lemma {:induction false} SameBelow(nodes: seq<Node>, nodes': seq<Node>, c: seq<nat>, r: nat)
    requires |nodes'| == |nodes| && forall i | 0 <= i < |nodes| :: nodes'[i].rank == nodes[i].rank
    ensures Below(nodes', c, r) == Below(nodes, c, r)
    decreases |c|
  {
    if c != [] {
      SameBelow(nodes, nodes', c[1..], r);
    }
  }

  lemma LinkPredGentle(s: State, s': State, t: nat, pred: nat, n: nat, l: nat)
    requires Struct(s) && Pointed(s, s', pred, l, n) && Rechained(s, s', l) && Gains(s.chain[l], s'.chain[l], n)
    requires HoldsLock(s, pred, t) && !s.nodes[pred].marked && (pred == s.head || InLayer(s, pred, l)) && Made(s, n, t) && IsNode(s, n) && !s.nodes[n].marked
    ensures Gentle(s, s', t)
  {
    forall m | IsNode(s, m) ensures NodeGentle(s, s', t, m) {
    }
    forall j | 0 <= j < |s.chain| ensures LayerGentle(s, s', t, j) {
    }
  }

  lemma LinkPredKeeps(s: State, s': State, t: nat, q: Search, h: nat, n: nat, l: nat)
    requires Struct(s) && Gentle(s, s', t) && LinkingOk(s, t, q, h, n, l) && l < h && LayerFound(s, q, l)
    requires Pointed(s, s', q.preds[l], l, n) && Rechained(s, s', l) && Gains(s.chain[l], s'.chain[l], n)
    ensures LinkingOk(s', t, q, h, n, l + 1)
  {
    SearchKept(s, s', t, q, 0);
    ValidElsewhere(s, s', q, q.preds[l], l, n, l + 1, h);
    HeldStays(s, s', t, q, q.preds[l], l, n, h);
    forall j | 0 <= j < l + 1 ensures InLayer(s', n, j) {
      assert j < l ==> InLayer(s, n, j);
    }
    forall j | l + 1 <= j < h ensures !InLayer(s', n, j) {
      assert !InLayer(s, n, j);
    }
  }

  /** The threads' side of a step that changes a layer. */
  lemma ChangeStep(s: State, s': State, t: nat)
    requires Inv(s) && Struct(s') && Gentle(s, s', t) && OthersStay(s, s', t) && PcOk(s', t, s'.threads[t]) && !s.threads[t].GrowMark?
    requires |s'.nodes| == |s.nodes| && forall m: nat | IsNode(s, m) :: s'.nodes[m].holder == s.nodes[m].holder
    requires s'.retired == s.retired && s'.maker == s.maker
    requires forall m: nat | Holds(s.threads[t], m) :: Holds(s'.threads[t], m)
    ensures Inv(s') && Softly(s, s', t)
  {
    assert Parts(s);
    forall m: nat | IsNode(s', m) ensures LockFrom(s, s', t, m) {
      assert HolderAt(s, m);
    }
    forall m | m in s'.retired && (m !in s.retired || s.retired[m] == t) ensures RetiredAt(s', m) {
      assert RetiredAt(s, m) && NodeGentle(s, s', t, m);
    }
    StepKept(s, s', t);
  }

  // --------------------------------------------------------------- unlinking a node

  ghost predicate Loses(c: seq<nat>, c': seq<nat>, n: nat) {
    forall m :: m in c' <==> m in c && m != n
  }

  lemma LosesAt(nodes: seq<Node>, head: nat, c: seq<nat>, l: nat, k: nat)
    requires LayerAt(nodes, head, c, l) && k < |c|
    ensures Loses(c, c[..k] + c[k + 1..], c[k])
  {
    var c' := c[..k] + c[k + 1..];
    assert c == c[..k] + [c[k]] + c[k + 1..];
    forall i | 0 <= i < |c'| ensures c'[i] != c[k] {
      if i < k {
        RanksRise(nodes, head, c, l, i, k);
      } else {
        RanksRise(nodes, head, c, l, k, i + 1);
      }
    }
  }

  lemma LeaveStruct(s: State, s': State, pred: nat, v: nat, l: nat, next: nat)
    requires Struct(s) && Pointed(s, s', pred, l, next) && Rechained(s, s', l) && Loses(s.chain[l], s'.chain[l], v)
    requires LayerAt(s'.nodes, s'.head, s'.chain[l], l) && IsNode(s, v) && s.nodes[v].marked
    requires forall j | l < j < |s.chain| :: !InLayer(s, v, j)
    requires next == 0 || (InOrGone(s, next, l) && s.nodes[next].rank > s.nodes[pred].rank)
    ensures Struct(s')
  {
    forall j | 0 <= j < |s'.chain| ensures LayerAt(s'.nodes, s'.head, s'.chain[j], j) {
      if j != l {
        OtherLayer(s, s', pred, l, next, j);
      }
    }
    forall j | 0 < j < |s'.chain| ensures NestedAt(s', j) {
      assert NestedAt(s, j);
      assert j > l ==> !InLayer(s, v, j);
    }
    forall m: nat, j: nat | InLayer(s, m, j) && m != v ensures InLayer(s', m, j) {
    }
    forall m: nat | IsNode(s', m) ensures NodeAt(s', m) && LinkedAt(s', m) {
      assert NodeAt(s, m) && LinkedAt(s, m);
      forall j | 0 <= j < s'.nodes[m].height ensures PtrOk(s', m, j) {
        assert PtrOk(s, m, j);
      }
    }
  }

  /** The victim is what its validated predecessor points to. */
  lemma CutLayer(s: State, s': State, q: Search, l: nat, next: nat)
    requires Struct(s) && SearchOk(s, q, 0) && l <= q.top && l < |s.chain| && ValidAt(s, q, l)
    requires q.preds[l] == s.head || InLayer(s, q.preds[l], l)
    requires HasLayer(s, q.op.victim, l) && InLayer(s, q.op.victim, l) && s.nodes[q.op.victim].rank == q.op.rank
    requires s.nodes[q.op.victim].skip[l] == next
    requires SameShared(Leave(SetSkip(s, q.preds[l], l, next), l, q.op.victim), s')
    ensures Pointed(s, s', q.preds[l], l, next) && Rechained(s, s', l) && Loses(s.chain[l], s'.chain[l], q.op.victim)
    ensures LayerAt(s'.nodes, s'.head, s'.chain[l], l)
  {
    var pred, c := q.preds[l], s.chain[l];
    var mid := SetSkip(s, pred, l, next);
    var k := VictimAt(s, q, l);
    SameBelow(s.nodes, mid.nodes, c, q.op.rank);
    assert LinkAt(s.nodes, c, l, k);
    LosesAt(s.nodes, s.head, c, l, k);
    LeaveLayer(s.nodes, mid.nodes, s.head, c, l, k, pred);
  }

  /** Where the victim is: right after the predecessor. */
  lemma VictimAt(s: State, q: Search, l: nat) returns (k: nat)
    requires Struct(s) && SearchOk(s, q, 0) && l <= q.top && l < |s.chain| && ValidAt(s, q, l)
    requires q.preds[l] == s.head || InLayer(s, q.preds[l], l)
    requires IsNode(s, q.op.victim) && InLayer(s, q.op.victim, l) && s.nodes[q.op.victim].rank == q.op.rank
    ensures k < |s.chain[l]| && s.chain[l][k] == q.op.victim && Below(s.nodes, s.chain[l], q.op.rank) == k
    ensures if k == 0 then q.preds[l] == s.head else s.chain[l][k - 1] == q.preds[l]
    ensures LayerAt(s.nodes, s.head, s.chain[l], l) && s.nodes[s.head].rank == 0
  {
    var c := s.chain[l];
    assert LayerFound(s, q, l) && LayerAt(s.nodes, s.head, c, l);
    k := BelowPred(s.nodes, s.head, c, l, q.preds[l], q.op.rank);
    var i :| 0 <= i < |c| && c[i] == q.op.victim;
    VictimIndex(s.nodes, s.head, c, l, k, i, q.op.rank);
  }

  lemma VictimIndex(nodes: seq<Node>, head: nat, c: seq<nat>, l: nat, k: nat, i: nat, r: nat)
    requires LayerAt(nodes, head, c, l) && i < |c| && k <= |c| && Below(nodes, c, r) == k && c[i] < |nodes| && nodes[c[i]].rank == r
    requires k < |c| ==> c[k] < |nodes| && nodes[c[k]].rank >= r
    requires forall j | 0 <= j < k :: c[j] < |nodes| && nodes[c[j]].rank < r
    ensures i == k
  {
    if k < i {
      RanksRise(nodes, head, c, l, k, i);
    }
  }

  lemma CutGentle(s: State, s': State, t: nat, pred: nat, v: nat, l: nat, next: nat)
    requires Struct(s) && Pointed(s, s', pred, l, next) && Rechained(s, s', l) && Loses(s.chain[l], s'.chain[l], v)
    requires HoldsLock(s, pred, t) && !s.nodes[pred].marked && (pred == s.head || InLayer(s, pred, l))
    requires HoldsLock(s, v, t) && s.nodes[v].marked
    ensures Gentle(s, s', t)
  {
    forall m | IsNode(s, m) ensures NodeGentle(s, s', t, m) {
    }
    forall j | 0 <= j < |s.chain| ensures LayerGentle(s, s', t, j) {
    }
  }

  lemma CutShared(s: State, s': State, t: nat, q: Search, h: nat, l: nat, next: nat)
    requires Inv(s) && t < |s.threads| && s.threads[t] == CutWrite(q, h, l, next) && ChangingOk(s, t, s.threads[t])
    requires HasLayer(s, q.preds[l], l) && l < |s.chain| && SameShared(Leave(SetSkip(s, q.preds[l], l, next), l, q.op.victim), s')
    ensures Struct(s') && Gentle(s, s', t) && Pointed(s, s', q.preds[l], l, next)
    ensures Rechained(s, s', l) && Loses(s.chain[l], s'.chain[l], q.op.victim)
  {
    Built(s);
    var pred, v := q.preds[l], q.op.victim;
    assert ValidAt(s, q, l) && LayerFound(s, q, l) && HoldsLock(s, pred, t) && InLayer(s, v, l);
    PredLinked(s, t, q, l);
    CutLayer(s, s', q, l, next);
    assert NodeAt(s, v) && PtrOk(s, v, l);
    forall j | l < j < |s.chain| ensures !InLayer(s, v, j) {
      if j >= h && InLayer(s, v, j) {
        LayerNode(s, v, j);
      }
    }
    LeaveStruct(s, s', pred, v, l, next);
    CutGentle(s, s', t, pred, v, l, next);
  }

  lemma CutKeeps(s: State, s': State, t: nat, q: Search, h: nat, l: nat, next: nat)
    requires Struct(s) && Gentle(s, s', t) && CuttingOk(s, t, q, h, l)
    requires Pointed(s, s', q.preds[l], l, next) && Rechained(s, s', l) && Loses(s.chain[l], s'.chain[l], q.op.victim)
    ensures SearchOk(s', q, 0) && Held(s', t, q, h) && Validated(s', q, 0, l) && VictimOk(s', t, q.op, l)
    ensures s'.nodes[q.op.victim].height == h && forall j | l <= j < h :: !InLayer(s', q.op.victim, j)
  {
    SearchKept(s, s', t, q, 0);
    assert Validated(s, q, 0, l);
    ValidElsewhere(s, s', q, q.preds[l], l, next, 0, l);
    HeldStays(s, s', t, q, q.preds[l], l, next, h);
    forall j | 0 <= j < l ensures InLayer(s', q.op.victim, j) {
      assert InLayer(s, q.op.victim, j);
    }
    forall j | l <= j < h ensures !InLayer(s', q.op.victim, j) {
      assert j > l ==> !InLayer(s, q.op.victim, j);
    }
  }

  lemma CutWriteStep(s: State, s': State, t: nat)
    requires Inv(s) && t < |s.threads| && StepCutWrite(s, s', t)
    ensures Inv(s') && Softly(s, s', t)
  {
    var pc := s.threads[t];
    Known(s, t);
    CutChange(s, s', t, pc.q, pc.h, pc.at, pc.next);
  }

  lemma CutChange(s: State, s': State, t: nat, q: Search, h: nat, l: nat, next: nat)
    requires Inv(s) && t < |s.threads| && s.threads[t] == CutWrite(q, h, l, next) && ChangingOk(s, t, s.threads[t])
    requires HasLayer(s, q.preds[l], l) && l < |s.chain| && SameShared(Leave(SetSkip(s, q.preds[l], l, next), l, q.op.victim), s')
    requires OthersStay(s, s', t) && s'.threads[t] == if l > 0 then CutRead(q, h, l - 1) else Unlock(q, h, Removed)
    ensures Inv(s') && Softly(s, s', t)
  {
    CutShared(s, s', t, q, h, l, next);
    Built(s);
    CutKeeps(s, s', t, q, h, l, next);
    CutNext(s', t, q, h, l, next);
    ChangeStep(s, s', t);
  }

  /** On to the layer below, or done. */
  lemma CutNext(s: State, t: nat, q: Search, h: nat, l: nat, next: nat)
    requires SearchOk(s, q, 0) && Held(s, t, q, h) && Validated(s, q, 0, l) && VictimOk(s, t, q.op, l) && l < h <= q.top + 1
    requires s.nodes[q.op.victim].height == h && (forall j | l <= j < h :: !InLayer(s, q.op.victim, j))
    requires q.op.rank > 0 && q.op.removing && q.op.victim != 0
    ensures var pc := if l > 0 then CutRead(q, h, l - 1) else Unlock(q, h, Removed);
            PcOk(s, t, pc) && forall m: nat | Holds(CutWrite(q, h, l, next), m) :: Holds(pc, m)
  {
    if l > 0 {
      assert CuttingOk(s, t, q, h, l - 1);
    }
  }

  // --------------------------------------------------------------------- a new head

  ghost predicate Swapped(s: State, s': State, t: nat, h: nat, n: nat) {
    && s'.nodes == s.nodes && s'.maker == s.maker && s'.head == n && s'.retired == s.retired[s.head := t]
    && |s'.chain| == h >= |s.chain| && s'.chain[..|s.chain|] == s.chain
    && forall l | |s.chain| <= l < h :: s'.chain[l] == []
  }

  lemma SwapStruct(s: State, s': State, t: nat, h: nat, n: nat)
    requires Struct(s) && NewHeadOk(s, t, h, s.head, n) && Copied(s, s.head, n, s.nodes[s.head].height) && Swapped(s, s', t, h, n)
    ensures Struct(s')
  {
    assert NodeAt(s, n) && NodeAt(s, s.head);
    forall l | 0 <= l < |s'.chain| ensures LayerAt(s'.nodes, s'.head, s'.chain[l], l) {
      if l < |s.chain| {
        assert s'.chain[l] == s'.chain[..|s.chain|][l];
        assert LayerAt(s.nodes, s.head, s.chain[l], l);
        forall i | 0 <= i < |s.chain[l]| ensures LinkAt(s'.nodes, s'.chain[l], l, i) {
          assert LinkAt(s.nodes, s.chain[l], l, i);
        }
      }
    }
    forall m: nat, l: nat ensures InLayer(s', m, l) == InLayer(s, m, l) {
      assert l < |s.chain| ==> s'.chain[l] == s'.chain[..|s.chain|][l];
    }
    forall l | 0 < l < |s'.chain| ensures NestedAt(s', l) {
      if l < |s.chain| {
        assert NestedAt(s, l) && s'.chain[l] == s'.chain[..|s.chain|][l] && s'.chain[l - 1] == s'.chain[..|s.chain|][l - 1];
      }
    }
    forall m: nat | IsNode(s', m) ensures NodeAt(s', m) && LinkedAt(s', m) {
      assert NodeAt(s, m) && LinkedAt(s, m);
      forall l | 0 <= l < s'.nodes[m].height ensures PtrOk(s', m, l) {
        assert PtrOk(s, m, l);
      }
    }
  }

  lemma SwapGentle(s: State, s': State, t: nat, h: nat, n: nat)
    requires Struct(s) && Made(s, n, t) && Swapped(s, s', t, h, n)
    ensures Gentle(s, s', t)
  {
    forall l | 0 <= l < |s.chain| ensures LayerGentle(s, s', t, l) {
      assert s'.chain[l] == s'.chain[..|s.chain|][l];
    }
  }

  lemma GrowSwapStep(s: State, s': State, t: nat)
    requires Inv(s) && t < |s.threads| && StepGrowSwap(s, s', t) && s.head == s.threads[t].prev
    ensures Inv(s') && Softly(s, s', t)
  {
    var pc := s.threads[t];
    Known(s, t);
    Built(s);
    SwapIs(s, s', t, pc.h, pc.node);
    SwapStruct(s, s', t, pc.h, pc.node);
    SwapGentle(s, s', t, pc.h, pc.node);
    SwapThreads(s, s', t, pc.h, pc.node);
  }

  lemma SwapIs(s: State, s': State, t: nat, h: nat, n: nat)
    requires HeadOk(s) && s.nodes[s.head].height < h && s'.nodes == s.nodes && s'.maker == s.maker && s'.head == n
    requires s'.retired == s.retired[s.head := t]
    requires s'.chain == s.chain + seq(if h > |s.chain| then h - |s.chain| else 0, _ => [])
    ensures Swapped(s, s', t, h, n)
  {
  }

  lemma SwapThreads(s: State, s': State, t: nat, h: nat, n: nat)
    requires Inv(s) && t < |s.threads| && Swapped(s, s', t, h, n) && Struct(s') && Gentle(s, s', t) && OthersStay(s, s', t)
    requires s.threads[t] == GrowSwap(h, s.head, n) && s'.threads[t] == GrowMark(h, s.head, n) && HoldsLock(s, s.head, t)
    ensures Inv(s') && Softly(s, s', t)
  {
    assert Parts(s);
    assert s.nodes[s.head].rank == 0;
    forall m: nat | IsNode(s', m) ensures LockFrom(s, s', t, m) {
      assert HolderAt(s, m);
    }
    forall m | m in s'.retired && (m !in s.retired || s.retired[m] == t) ensures RetiredAt(s', m) {
      assert m != s.head ==> RetiredAt(s, m);
    }
    StepKept(s, s', t);
    assert Parts(s');
  }

  // ----------------------------------------------------------------------- whole runs

  lemma FindingStep(s: State, s': State, t: nat)
    requires Inv(s) && t < |s.threads| && Step(s, s', t)
    requires var pc := s.threads[t];
             pc.Idle? || pc.FindMax? || pc.FindHead? || pc.Walk? || pc.AddFound? || pc.AddWait? || pc.Choose?
    ensures Inv(s') && Softly(s, s', t)
  {
    match s.threads[t]
    case Idle =>
      var rank: nat :| StepStart(s, s', t, rank);
      StartStep(s, s', t, rank);
    case FindMax(_) => FindMaxStep(s, s', t);
    case FindHead(_, _) => FindHeadStep(s, s', t);
    case Walk(_, _, _) => WalkStep(s, s', t);
    case AddFound(_, _) => MetStep(s, s', t);
    case AddWait(_, _) => AddWaitStep(s, s', t);
    case Choose(_) =>
      var h: nat :| StepChoose(s, s', t, h);
      ChooseStep(s, s', t, h);
  }

  predicate InGrowth(pc: PC) {
    || pc.GrowStart? || pc.GrowLoad? || pc.GrowCreate? || pc.GrowLock? || pc.GrowFlags? || pc.GrowCopy? || pc.GrowSwap?
    || pc.GrowMark? || pc.GrowUnlock?
  }

  lemma GrowthStep(s: State, s': State, t: nat)
    requires Inv(s) && t < |s.threads| && Step(s, s', t) && InGrowth(s.threads[t])
    ensures Inv(s') && Softly(s, s', t)
  {
    match s.threads[t]
    case GrowStart => GrowLocalStep(s, s', t);
    case GrowLoad(_) => GrowLocalStep(s, s', t);
    case GrowCreate(_, _) => GrowCreateStep(s, s', t);
    case GrowLock(_, _, _) => GrowLockStep(s, s', t);
    case GrowFlags(_, _, _) => GrowFlagsStep(s, s', t);
    case GrowCopy(_, _, _, _) => GrowCopyStep(s, s', t);
    case GrowSwap(_, prev, _) =>
      if s.head == prev {
        GrowSwapStep(s, s', t);
      } else {
        SwapFails(s, s', t);
      }
    case GrowMark(_, _, _) => GrowMarkStep(s, s', t);
    case GrowUnlock(_) => LastReleaseStep(s, s', t);
  }

  predicate InRemoval(pc: PC) {
    pc.RemoveLinked? || pc.RemoveMarked? || pc.RemoveLock? || pc.RemoveCheck? || pc.RemoveMark? || pc.FreeVictim?
  }

  lemma RemovalStep(s: State, s': State, t: nat)
    requires Inv(s) && t < |s.threads| && Step(s, s', t) && InRemoval(s.threads[t])
    ensures Inv(s') && Softly(s, s', t)
  {
    match s.threads[t]
    case RemoveLinked(_) => MetStep(s, s', t);
    case RemoveMarked(_) => MetStep(s, s', t);
    case RemoveLock(_) => RemoveLockStep(s, s', t);
    case RemoveCheck(_) => MetStep(s, s', t);
    case RemoveMark(_) => RemoveMarkStep(s, s', t);
    case FreeVictim(_) => LastReleaseStep(s, s', t);
  }

  predicate InChange(pc: PC) {
    || pc.Lock? || pc.LockMarked? || pc.LockSkip? || pc.LockSucc? || pc.Unlock? || pc.Create? || pc.LinkNew? || pc.LinkPred?
    || pc.LinkFlag? || pc.CutRead? || pc.CutWrite?
  }

  lemma LockedStep(s: State, s': State, t: nat)
    requires Inv(s) && t < |s.threads| && Step(s, s', t) && InChange(s.threads[t])
    ensures Inv(s') && Softly(s, s', t)
  {
    match s.threads[t]
    case Lock(_, _, _) => LockStep(s, s', t);
    case LockMarked(_, _, _) => LockMarkedStep(s, s', t);
    case LockSkip(_, _, _) => LockSkipStep(s, s', t);
    case LockSucc(_, _, _) => LockSuccStep(s, s', t);
    case Unlock(_, _, _) => UnlockStep(s, s', t);
    case Create(_, _) => CreateStep(s, s', t);
    case LinkNew(_, _, _, _) => LinkNewStep(s, s', t);
    case LinkPred(_, _, _, _) => LinkPredStep(s, s', t);
    case LinkFlag(_, _, _) => LinkFlagStep(s, s', t);
    case CutRead(_, _, _) => CutReadStep(s, s', t);
    case CutWrite(_, _, _, _) => CutWriteStep(s, s', t);
  }

  lemma StepInv(s: State, s': State, t: nat)
    requires Inv(s) && t < |s.threads| && Step(s, s', t)
    ensures Inv(s') && Softly(s, s', t)
  {
    var pc := s.threads[t];
    if InGrowth(pc) {
      GrowthStep(s, s', t);
    } else if InRemoval(pc) {
      RemovalStep(s, s', t);
    } else if InChange(pc) {
      LockedStep(s, s', t);
    } else if pc.Seek? {
      SeekStep(s, s', t);
    } else {
      FindingStep(s, s', t);
    }
  }

  lemma {:induction false} RunInv(run: seq<State>, k: nat)
    requires IsRun(run) && k < |run|
    ensures Inv(run[k])
  {
    if k == 0 {
      InitInv(run[0]);
    } else {
      RunInv(run, k - 1);
      assert NextAt(run, k - 1);
      var t: nat :| StepBy(run, k - 1, t);
      StepInv(run[k - 1], run[k], t);
    }
  }

  // ---------------------------------------------------------------------- the layers

  /** Following the pointers of layer l from `at` visits c and then ends. */
  ghost predicate Visits(nodes: seq<Node>, l: nat, at: nat, c: seq<nat>)
    decreases |c|
  {
    if c == [] then at == 0
    else at == c[0] && 0 < at < |nodes| && l < |nodes[at].skip| && Visits(nodes, l, nodes[at].skip[l], c[1..])
  }

  lemma {:induction false} LayerVisits(nodes: seq<Node>, c: seq<nat>, l: nat)
    requires forall i | 0 <= i < |c| :: LinkAt(nodes, c, l, i)
    ensures Visits(nodes, l, if c == [] then 0 else c[0], c)
    decreases |c|
  {
    if c != [] {
      assert LinkAt(nodes, c, l, 0);
      var d := c[1..];
      forall i | 0 <= i < |d| ensures LinkAt(nodes, d, l, i) {
        assert LinkAt(nodes, c, l, i + 1);
      }
      LayerVisits(nodes, d, l);
    }
  }

  /** In every state, each layer below the head's height is linked from the head to the end
      and strictly sorted: no key is in it twice. */
  lemma LayersAreSorted(run: seq<State>, k: nat, l: nat)
    requires IsRun(run) && k < |run| && l < |run[k].chain|
    ensures var s := run[k];
            && IsNode(s, s.head) && s.nodes[s.head].height == |s.chain| == |s.nodes[s.head].skip|
            && Visits(s.nodes, l, s.nodes[s.head].skip[l], s.chain[l])
    ensures var s := run[k];
            forall i, j | 0 <= i < j < |s.chain[l]| ::
              s.chain[l][i] < |s.nodes| && s.chain[l][j] < |s.nodes| && s.nodes[s.chain[l][i]].rank < s.nodes[s.chain[l][j]].rank
  {
    RunInv(run, k);
    Built(run[k]);
    var s := run[k];
    assert NodeAt(s, s.head) && LayerAt(s.nodes, s.head, s.chain[l], l);
    LayerVisits(s.nodes, s.chain[l], l);
    forall i, j | 0 <= i < j < |s.chain[l]|
      ensures s.chain[l][i] < |s.nodes| && s.chain[l][j] < |s.nodes| && s.nodes[s.chain[l][i]].rank < s.nodes[s.chain[l][j]].rank
    {
      RanksRise(s.nodes, s.head, s.chain[l], l, i, j);
    }
  }

  /** In every state each layer is contained in the one below. */
  lemma LayersAreNested(run: seq<State>, k: nat, l: nat, n: nat)
    requires IsRun(run) && k < |run| && 0 < l < |run[k].chain| && n in run[k].chain[l]
    ensures n in run[k].chain[l - 1]
  {
    RunInv(run, k);
    Built(run[k]);
    assert NestedAt(run[k], l);
  }

  /** A fully linked node that nobody has marked is in every layer of its height; and every
      pointer, also of nodes already removed, leads to a higher key. */
  lemma LinkedNodesAreFound(run: seq<State>, k: nat, n: nat)
    requires IsRun(run) && k < |run| && IsNode(run[k], n)
    ensures var s := run[k];
            s.nodes[n].rank > 0 && s.nodes[n].linked && !s.nodes[n].marked ==> InLayers(s, n, s.nodes[n].height)
    ensures var s := run[k];
            forall l | 0 <= l < |s.nodes[n].skip| && s.nodes[n].skip[l] != 0 ::
              IsNode(s, s.nodes[n].skip[l]) && s.nodes[n].rank < s.nodes[s.nodes[n].skip[l]].rank
  {
    RunInv(run, k);
    Built(run[k]);
    LinkedEverywhere(run[k], n);
    PointersRise(run[k], n);
  }

  lemma LinkedEverywhere(s: State, n: nat)
    requires Struct(s) && IsNode(s, n)
    ensures s.nodes[n].rank > 0 && s.nodes[n].linked && !s.nodes[n].marked ==> InLayers(s, n, s.nodes[n].height)
  {
    assert LinkedAt(s, n);
  }

  lemma PointersRise(s: State, n: nat)
    requires Struct(s) && IsNode(s, n)
    ensures forall l | 0 <= l < |s.nodes[n].skip| && s.nodes[n].skip[l] != 0 ::
              IsNode(s, s.nodes[n].skip[l]) && s.nodes[n].rank < s.nodes[s.nodes[n].skip[l]].rank
  {
    assert NodeAt(s, n);
    forall l | 0 <= l < |s.nodes[n].skip| && s.nodes[n].skip[l] != 0
      ensures IsNode(s, s.nodes[n].skip[l]) && s.nodes[n].rank < s.nodes[s.nodes[n].skip[l]].rank
    {
      assert PtrOk(s, n, l);
    }
  }

  // ------------------------------------------------------------------------ lock order

  /** The lock a thread is about to take. */
  function Wanted(pc: PC): (n: nat) {
    match pc
    case Lock(q, _, l) => if l < |q.preds| && !Shared(q, l) then q.preds[l] else 0
    case RemoveLock(q) => q.found
    case GrowLock(_, prev, _) => prev
    case _ => 0
  }

  /** Locks are taken in descending order of keys. */
  lemma LocksDescend(run: seq<State>, k: nat, t: nat, n: nat, m: nat)
    requires IsRun(run) && k < |run| && t < |run[k].threads| && Wanted(run[k].threads[t]) == n != 0
    requires IsNode(run[k], m) && run[k].nodes[m].holder == Some(t)
    ensures IsNode(run[k], n) && run[k].nodes[n].rank < run[k].nodes[m].rank
  {
    RunInv(run, k);
    Known(run[k], t);
    HeldIsKnown(run[k], t, m);
    WantedIsLower(run[k], t, n, m);
  }

  lemma HeldIsKnown(s: State, t: nat, m: nat)
    requires Inv(s) && IsNode(s, m) && s.nodes[m].holder == Some(t)
    ensures t < |s.threads| && Holds(s.threads[t], m)
  {
    assert Parts(s);
    assert HolderAt(s, m);
  }

  lemma WantedIsLower(s: State, t: nat, n: nat, m: nat)
    requires t < |s.threads| && PcOk(s, t, s.threads[t]) && Wanted(s.threads[t]) == n != 0
    requires IsNode(s, m) && Holds(s.threads[t], m)
    ensures IsNode(s, n) && s.nodes[n].rank < s.nodes[m].rank
  {
    Unfold(s, t, s.threads[t]);
    var q, l := s.threads[t].q, s.threads[t].at;
    assert LayerFound(s, q, l);
    if InPreds(q, l, m) {
      var j :| 0 <= j < l && q.preds[j] == m;
      RanksFall(s, q, j, l - 1);
      assert LayerFound(s, q, l - 1);
    }
  }

  /** t waits for a lock that u holds. */
  ghost predicate WaitsFor(s: State, t: nat, u: nat) {
    && t < |s.threads| && u < |s.threads|
    && IsNode(s, Wanted(s.threads[t])) && s.nodes[Wanted(s.threads[t])].holder == Some(u)
  }

  ghost predicate WaitChain(s: State, ts: seq<nat>) {
    forall i | 0 <= i < |ts| - 1 :: WaitsFor(s, ts[i], ts[i + 1])
  }

  function WantedRank(s: State, t: nat): nat
    requires t < |s.threads| && Wanted(s.threads[t]) < |s.nodes|
  {
    s.nodes[Wanted(s.threads[t])].rank
  }

  /** Along a chain of waiting threads the ranks waited for fall. */
  lemma {:induction false} WaitedRanksFall(run: seq<State>, k: nat, ts: seq<nat>, i: nat)
    requires IsRun(run) && k < |run| && WaitChain(run[k], ts) && 0 < i < |ts| - 1
    ensures WaitsFor(run[k], ts[0], ts[1]) && WaitsFor(run[k], ts[i], ts[i + 1])
    ensures WantedRank(run[k], ts[i]) < WantedRank(run[k], ts[0])
    decreases i
  {
    var s := run[k];
    assert WaitsFor(s, ts[i - 1], ts[i]) && WaitsFor(s, ts[i], ts[i + 1]) && WaitsFor(s, ts[0], ts[1]);
    LocksDescend(run, k, ts[i], Wanted(s.threads[ts[i]]), Wanted(s.threads[ts[i - 1]]));
    if i > 1 {
      WaitedRanksFall(run, k, ts, i - 1);
    }
  }

  /** No cycle of threads each waiting for a lock that the next one holds. */
  lemma NoDeadlock(run: seq<State>, k: nat, ts: seq<nat>)
    requires IsRun(run) && k < |run| && |ts| > 1 && WaitChain(run[k], ts)
    ensures ts[0] != ts[|ts| - 1]
  {
    var last := |ts| - 1;
    if ts[0] == ts[last] {
      assert WaitsFor(run[k], ts[0], ts[1]);
      var cycle := ts + [ts[1]];
      forall i | 0 <= i < |cycle| - 1 ensures WaitsFor(run[k], cycle[i], cycle[i + 1]) {
        assert i < last ==> WaitsFor(run[k], ts[i], ts[i + 1]);
      }
      WaitedRanksFall(run, k, cycle, last);
    }
  }

  // ------------------------------------------------------------------ nobody is stuck

  /** The thread is not waiting for a lock. */
  ghost predicate Unhindered(s: State, t: nat)
    requires t < |s.threads|
  {
    Wanted(s.threads[t]) == 0 || (IsNode(s, Wanted(s.threads[t])) && s.nodes[Wanted(s.threads[t])].holder == None)
  }

  /** An add that waits for somebody else's node to be fully linked. */
  ghost predicate Spins(s: State, t: nat)
    requires t < |s.threads|
  {
    s.threads[t].AddWait? && IsNode(s, s.threads[t].node) && !s.nodes[s.threads[t].node].linked
  }

  lemma SeekerCanStep(s: State, t: nat) returns (s': State)
    requires t < |s.threads| && Struct(s) && s.threads[t].Seek? && SeekOk(s, s.threads[t].k)
    ensures Step(s, s', t) && t < |s'.threads| && s'.threads[t] != s.threads[t]
  {
    var k := s.threads[t].k;
    SeekGoesOn(s, k);
    s' := Goto(s, t, if k.SeekEnd? then Idle else Seek(SeekNext(s, k)));
  }

  lemma FinderCanStep(s: State, t: nat) returns (s': State)
    requires t < |s.threads| && Struct(s) && FindOk(s, t, s.threads[t])
    requires var pc := s.threads[t]; pc.FindMax? || pc.FindHead? || pc.Walk? || pc.AddFound? || pc.AddWait? || pc.Choose?
    requires !Spins(s, t)
    ensures Step(s, s', t) && t < |s'.threads| && s'.threads[t] != s.threads[t]
  {
    match s.threads[t]
    case FindMax(op) => s' := Goto(s, t, FindHead(op, s.nodes[s.head].height - 1));
    case FindHead(op, top) =>
      s' := Goto(s, t, Walk(Search(op, top, seq(top + 1, _ => 0), seq(top + 1, _ => 0), 0, 0), top, s.head));
    case Walk(q, at, pred) =>
      assert NodeAt(s, pred) && PtrOk(s, pred, at);
      var node := s.nodes[pred].skip[at];
      s' := Goto(s, t, if node != 0 && s.nodes[node].rank < q.op.rank then Walk(q, at, node)
                       else if at > 0 then Walk(Record(s, q, at, pred, node), at - 1, pred)
                       else Found(s, Record(s, q, at, pred, node)));
    case AddFound(op, node) => s' := Goto(s, t, if s.nodes[node].marked then FindMax(op) else AddWait(op, node));
    case AddWait(_, node) => s' := Goto(s, t, Idle);
    case Choose(q) =>
      s' := Goto(s, t, Lock(q, 1, 0));
      assert StepChoose(s, s', t, 1);
  }

  lemma RemoverCanStep(s: State, t: nat) returns (s': State)
    requires t < |s.threads| && RemovingOk(s, t, s.threads[t]) && Unhindered(s, t)
    requires var pc := s.threads[t];
             pc.RemoveLinked? || pc.RemoveMarked? || pc.RemoveLock? || pc.RemoveCheck? || pc.RemoveMark? || pc.FreeVictim?
    ensures Step(s, s', t) && t < |s'.threads| && s'.threads[t] != s.threads[t]
  {
    match s.threads[t]
    case RemoveLinked(q) =>
      s' := Goto(s, t, if s.nodes[q.found].linked && s.nodes[q.found].height == q.layer + 1 then RemoveMarked(q) else Idle);
    case RemoveMarked(q) => s' := Goto(s, t, if s.nodes[q.found].marked then Idle else RemoveLock(q));
    case RemoveLock(q) => s' := Goto(Acquire(s, q.found, t), t, RemoveCheck(q));
    case RemoveCheck(q) => s' := Goto(s, t, if s.nodes[q.found].marked then FreeVictim(q.found) else RemoveMark(q));
    case RemoveMark(q) =>
      s' := Goto(SetNode(s, q.found, s.nodes[q.found].(marked := true)), t,
                 Lock(q.(op := q.op.(victim := q.found)), s.nodes[q.found].height, 0));
    case FreeVictim(n) => s' := Goto(Release(s, n), t, Idle);
  }

  lemma LockerCanStep(s: State, t: nat) returns (s': State)
    requires t < |s.threads| && NodesOk(s) && LockingOk(s, t, s.threads[t]) && Unhindered(s, t)
    requires var pc := s.threads[t]; pc.Lock? || pc.LockMarked? || pc.LockSkip? || pc.LockSucc? || pc.Create? || pc.Unlock?
    ensures Step(s, s', t) && t < |s'.threads| && s'.threads[t] != s.threads[t]
  {
    match s.threads[t]
    case Lock(q, h, l) =>
      assert LayerFound(s, q, l);
      s' := Goto(if Shared(q, l) then s else Acquire(s, q.preds[l], t), t, LockMarked(q, h, l));
    case LockMarked(q, h, l) =>
      s' := Goto(s, t, if s.nodes[q.preds[l]].marked then Unlock(q, l + 1, Retry) else LockSkip(q, h, l));
    case LockSkip(q, h, l) =>
      assert LayerFound(s, q, l) && NodeAt(s, q.preds[l]);
      s' := Goto(s, t, if s.nodes[q.preds[l]].skip[l] != q.succs[l] then Unlock(q, l + 1, Retry)
                       else if q.op.removing then LockNext(q, h, l) else LockSucc(q, h, l));
    case LockSucc(q, h, l) =>
      assert LayerFound(s, q, l);
      s' := Goto(s, t, if q.succs[l] != 0 && s.nodes[q.succs[l]].marked then Unlock(q, l + 1, Retry) else LockNext(q, h, l));
    case Create(q, h) =>
      s' := Goto(s.(nodes := s.nodes + [NewNode(q.op.rank, h)], maker := s.maker[|s.nodes| := t]), t, LinkNew(q, h, |s.nodes|, 0));
    case Unlock(_, _, _) => s' := UnlockerCanStep(s, t);
  }

  lemma UnlockerCanStep(s: State, t: nat) returns (s': State)
    requires t < |s.threads| && LockingOk(s, t, s.threads[t]) && s.threads[t].Unlock?
    ensures Step(s, s', t) && t < |s'.threads| && s'.threads[t] != s.threads[t]
  {
    var q, n, after := s.threads[t].q, s.threads[t].n, s.threads[t].after;
    if n > 0 {
      assert HoldsLock(s, q.preds[n - 1], t);
      s' := Goto(if Shared(q, n - 1) then s else Release(s, q.preds[n - 1]), t, Unlock(q, n - 1, after));
    } else {
      s' := Goto(s, t, if after.Retry? then FindMax(q.op) else if after.Added? then Idle else FreeVictim(q.op.victim));
    }
  }

  lemma ChangerCanStep(s: State, t: nat) returns (s': State)
    requires t < |s.threads| && NodesOk(s) && ChangingOk(s, t, s.threads[t])
    requires var pc := s.threads[t]; pc.LinkNew? || pc.LinkPred? || pc.LinkFlag? || pc.CutRead? || pc.CutWrite?
    ensures Step(s, s', t) && t < |s'.threads| && s'.threads[t] != s.threads[t]
  {
    match s.threads[t]
    case LinkNew(q, h, n, l) =>
      assert NodeAt(s, n);
      s' := Goto(SetSkip(s, n, l, q.succs[l]), t, LinkPred(q, h, n, l));
    case LinkPred(q, h, n, l) =>
      assert ValidAt(s, q, l);
      s' := Goto(Enter(SetSkip(s, q.preds[l], l, n), l, n), t, if l + 1 < h then LinkNew(q, h, n, l + 1) else LinkFlag(q, h, n));
    case LinkFlag(q, h, n) => s' := Goto(SetNode(s, n, s.nodes[n].(linked := true)), t, Unlock(q, h, Added));
    case CutRead(q, h, l) =>
      assert NodeAt(s, q.op.victim);
      s' := Goto(s, t, CutWrite(q, h, l, s.nodes[q.op.victim].skip[l]));
    case CutWrite(q, h, l, next) =>
      assert ValidAt(s, q, l);
      s' := Goto(Leave(SetSkip(s, q.preds[l], l, next), l, q.op.victim), t, if l > 0 then CutRead(q, h, l - 1) else Unlock(q, h, Removed));
  }

  lemma GrowerCanStep(s: State, t: nat) returns (s': State)
    requires t < |s.threads| && Struct(s) && GrowingOk(s, t, s.threads[t]) && Unhindered(s, t)
    requires var pc := s.threads[t];
             pc.GrowStart? || pc.GrowLoad? || pc.GrowCreate? || pc.GrowLock? || pc.GrowFlags? || pc.GrowCopy? || pc.GrowSwap?
             || pc.GrowMark? || pc.GrowUnlock?
    ensures Step(s, s', t) && t < |s'.threads| && s'.threads[t] != s.threads[t]
  {
    match s.threads[t]
    case GrowStart => s' := Goto(s, t, if s.nodes[s.head].height < s.maxHeight then GrowLoad(s.nodes[s.head].height + 1) else Idle);
    case GrowLoad(h) => s' := Goto(s, t, if s.nodes[s.head].height >= h then Idle else GrowCreate(h, s.head));
    case GrowCreate(h, prev) =>
      s' := Goto(s.(nodes := s.nodes + [NewNode(0, h)], maker := s.maker[|s.nodes| := t]), t, GrowLock(h, prev, |s.nodes|));
    case GrowLock(h, prev, n) => s' := Goto(Acquire(s, prev, t), t, GrowFlags(h, prev, n));
    case GrowFlags(h, prev, n) =>
      s' := Goto(SetNode(s, n, s.nodes[n].(marked := s.nodes[prev].marked, linked := s.nodes[prev].linked)), t, GrowCopy(h, prev, n, 0));
    case GrowCopy(h, prev, n, at) =>
      assert NodeAt(s, prev) && NodeAt(s, n);
      s' := if at < s.nodes[prev].height then Goto(SetSkip(s, n, at, s.nodes[prev].skip[at]), t, GrowCopy(h, prev, n, at + 1))
            else Goto(s, t, GrowSwap(h, prev, n));
    case GrowSwap(h, prev, n) =>
      s' := if s.head == prev
            then Goto(s.(head := n, retired := s.retired[prev := t],
                         chain := s.chain + seq(if h > |s.chain| then h - |s.chain| else 0, _ => [])), t, GrowMark(h, prev, n))
            else Goto(s, t, GrowUnlock(prev));
    case GrowMark(_, prev, _) => s' := Goto(SetNode(s, prev, s.nodes[prev].(marked := true)), t, GrowUnlock(prev));
    case GrowUnlock(prev) => s' := Goto(Release(s, prev), t, Idle);
  }

  /** The side conditions of the steps stop a thread inside a call only at a lock that is held. */
  lemma RunningThreadCanStep(s: State, t: nat) returns (s': State)
    requires Inv(s) && t < |s.threads| && !s.threads[t].Idle? && Unhindered(s, t) && !Spins(s, t)
    ensures Step(s, s', t) && t < |s'.threads| && s'.threads[t] != s.threads[t]
  {
    Known(s, t);
    Built(s);
    var pc := s.threads[t];
    if pc.Seek? {
      s' := SeekerCanStep(s, t);
    } else if pc.FindMax? || pc.FindHead? || pc.Walk? || pc.AddFound? || pc.AddWait? || pc.Choose? {
      s' := FinderCanStep(s, t);
    } else if pc.RemoveLinked? || pc.RemoveMarked? || pc.RemoveLock? || pc.RemoveCheck? || pc.RemoveMark? || pc.FreeVictim? {
      s' := RemoverCanStep(s, t);
    } else if pc.Lock? || pc.LockMarked? || pc.LockSkip? || pc.LockSucc? || pc.Create? || pc.Unlock? {
      s' := LockerCanStep(s, t);
    } else if pc.LinkNew? || pc.LinkPred? || pc.LinkFlag? || pc.CutRead? || pc.CutWrite? {
      s' := ChangerCanStep(s, t);
    } else {
      s' := GrowerCanStep(s, t);
    }
  }

  lemma WantedIsNode(s: State, t: nat)
    requires t < |s.threads| && PcOk(s, t, s.threads[t]) && Wanted(s.threads[t]) != 0
    ensures IsNode(s, Wanted(s.threads[t]))
  {
    Unfold(s, t, s.threads[t]);
    if s.threads[t].Lock? {
      assert LayerFound(s, s.threads[t].q, s.threads[t].at);
    }
  }

  /** The thread that made node n is still linking it. */
  predicate Links(pc: PC, n: nat) {
    (pc.LinkNew? && pc.node == n) || (pc.LinkPred? && pc.node == n) || (pc.LinkFlag? && pc.node == n)
  }

  ghost predicate MakerAt(s: State, n: nat)
    requires IsNode(s, n)
  {
    s.nodes[n].rank > 0 && !s.nodes[n].linked ==>
      n in s.maker && s.maker[n] < |s.threads| && Links(s.threads[s.maker[n]], n)
  }

  /** Every node that is not fully linked yet is being linked by the thread that made it. */
  ghost predicate BeingLinked(s: State) {
    forall n | IsNode(s, n) :: MakerAt(s, n)
  }

  lemma LinkingGoesOn(s: State, s': State, t: nat, n: nat)
    requires t < |s.threads| && Step(s, s', t) && Links(s.threads[t], n)
    ensures t < |s'.threads| && (Links(s'.threads[t], n) || (IsNode(s', n) && s'.nodes[n].linked))
  {
  }

  /** The nodes a step adds. */
  lemma NodeIsNew(s: State, s': State, t: nat, n: nat)
    requires t < |s.threads| && Step(s, s', t) && IsNode(s', n) && !IsNode(s, n) && 0 < |s.nodes|
    ensures s'.nodes[n].rank > 0 ==> n in s'.maker && s'.maker[n] == t && t < |s'.threads| && Links(s'.threads[t], n)
  {
    if s.threads[t].Create? || s.threads[t].GrowCreate? {
      assert n == |s.nodes|;
    } else {
      NoNewNodes(s, s', t);
    }
  }

  lemma NoNewNodes(s: State, s': State, t: nat)
    requires t < |s.threads| && Step(s, s', t) && !s.threads[t].Create? && !s.threads[t].GrowCreate?
    ensures |s'.nodes| == |s.nodes|
  {
  }

  lemma OthersAlone(s: State, s': State, t: nat)
    requires t < |s.threads| && Step(s, s', t)
    ensures OthersStay(s, s', t)
  {
    if InChange(s.threads[t]) {
      ChangesAlone(s, s', t);
    } else if InGrowth(s.threads[t]) {
      GrowsAlone(s, s', t);
    }
  }

  lemma ChangesAlone(s: State, s': State, t: nat)
    requires t < |s.threads| && Step(s, s', t) && InChange(s.threads[t])
    ensures OthersStay(s, s', t)
  {
  }

  lemma GrowsAlone(s: State, s': State, t: nat)
    requires t < |s.threads| && Step(s, s', t) && InGrowth(s.threads[t])
    ensures OthersStay(s, s', t)
  {
  }

  lemma {:induction false} RunLinks(run: seq<State>, k: nat)
    requires IsRun(run) && k < |run|
    ensures BeingLinked(run[k])
    decreases k
  {
    if k > 0 {
      RunLinks(run, k - 1);
      RunInv(run, k - 1);
      assert NextAt(run, k - 1);
      var t: nat :| StepBy(run, k - 1, t);
      StepLinks(run[k - 1], run[k], t);
    }
  }

  lemma StepLinks(s: State, s': State, t: nat)
    requires Inv(s) && t < |s.threads| && Step(s, s', t) && BeingLinked(s)
    ensures BeingLinked(s')
  {
    Built(s);
    StepInv(s, s', t);
    OthersAlone(s, s', t);
    forall n: nat | IsNode(s', n) ensures MakerAt(s', n) {
      MakerKept(s, s', t, n);
    }
  }

  lemma MakerKept(s: State, s': State, t: nat, n: nat)
    requires t < |s.threads| && Step(s, s', t) && Softly(s, s', t) && OthersStay(s, s', t) && BeingLinked(s) && IsNode(s', n)
    requires 0 < |s.nodes|
    ensures MakerAt(s', n)
  {
    if IsNode(s, n) {
      assert Gentle(s, s', t) && NodeGentle(s, s', t, n) && MakerAt(s, n);
      if s.nodes[n].rank > 0 && !s.nodes[n].linked && s.maker[n] == t {
        LinkingGoesOn(s, s', t, n);
      }
    } else {
      NodeIsNew(s, s', t, n);
    }
  }

  /** While some call has not returned, some call can go on: its own, that of whoever holds the
      lock at the end of the chain it waits on, or that of whoever links the node it waits for. */
  lemma {:induction false} SomeCallCanGoOn(run: seq<State>, k: nat, t: nat) returns (u: nat, s': State)
    requires IsRun(run) && k < |run| && t < |run[k].threads| && !run[k].threads[t].Idle?
    ensures u < |run[k].threads| && !run[k].threads[u].Idle? && Step(run[k], s', u)
    ensures u < |s'.threads| && s'.threads[u] != run[k].threads[u]
    decreases if Wanted(run[k].threads[t]) < |run[k].nodes| then WantedRank(run[k], t) else 0
  {
    var s := run[k];
    RunInv(run, k);
    Known(s, t);
    if Spins(s, t) {
      RunLinks(run, k);
      assert MakerAt(s, s.threads[t].node);
      u := s.maker[s.threads[t].node];
      s' := RunningThreadCanStep(s, u);
    } else if Unhindered(s, t) {
      u := t;
      s' := RunningThreadCanStep(s, t);
    } else {
      var n := Wanted(s.threads[t]);
      WantedIsNode(s, t);
      var v := s.nodes[n].holder.value;
      HeldIsKnown(s, v, n);
      if Wanted(s.threads[v]) == 0 {
        u := v;
        s' := RunningThreadCanStep(s, v);
      } else {
        LocksDescend(run, k, v, Wanted(s.threads[v]), n);
        u, s' := SomeCallCanGoOn(run, k, v);
      }
    }
  }
}
