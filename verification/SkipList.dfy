/**
 * ConcurrentSkipList (folly/ConcurrentSkipList.h, folly/ConcurrentSkipList-inl.h) as a step
 * system: lazy removal, one lock per node, validation after locking, growth of the head.
 * A step is one load, store, compare-and-swap, lock or unlock.  Nodes are never reused while
 * somebody may look at them.
 *
 * A node's rank is 0 for a head node and one more than its key otherwise.  `chain`, `retired`
 * and `maker` are history: they are written by the steps and never read by the code.
 */
module SkipList {
  import opened Common

  /** skip(l) == 0 is the null pointer; nodes[0] is unused. */
  datatype Node = Node(rank: nat, height: nat, skip: seq<nat>, marked: bool, linked: bool, holder: Option<nat>)

  /** add(rank), or remove(rank); victim is the node a remove has marked, 0 before. */
  datatype Op = Op(rank: nat, removing: bool, victim: nat)

  /** The result of findInsertionPoint: preds and succs for the layers 0..top; `found` is the
      node with the same key, 0 if there is none, and `layer` where it was met first. */
  datatype Search = Search(op: Op, top: nat, preds: seq<nat>, succs: seq<nat>, found: nat, layer: nat)

  /** Where the guards of lockNodesForChange are released to. */
  datatype After = Retry | Added | Removed

  datatype PC =
    | Idle
    // findInsertionPointGetMaxLayer
    | FindMax(op: Op)
    | FindHead(op: Op, top: nat)
    | Walk(q: Search, at: nat, pred: nat)
    // addOrGetData, key found
    | AddFound(op: Op, node: nat)
    | AddWait(op: Op, node: nat)
    // remove, before the node is marked
    | RemoveLinked(q: Search)
    | RemoveMarked(q: Search)
    | RemoveLock(q: Search)
    | RemoveCheck(q: Search)
    | RemoveMark(q: Search)
    // the random height of a new node
    | Choose(q: Search)
    // lockNodesForChange on the layers 0..h-1
    | Lock(q: Search, h: nat, at: nat)
    | LockMarked(q: Search, h: nat, at: nat)
    | LockSkip(q: Search, h: nat, at: nat)
    | LockSucc(q: Search, h: nat, at: nat)
    | Unlock(q: Search, n: nat, after: After)
    // linking a new node
    | Create(q: Search, h: nat)
    | LinkNew(q: Search, h: nat, node: nat, at: nat)
    | LinkPred(q: Search, h: nat, node: nat, at: nat)
    | LinkFlag(q: Search, h: nat, node: nat)
    // unlinking the marked node
    | CutRead(q: Search, h: nat, at: nat)
    | CutWrite(q: Search, h: nat, at: nat, next: nat)
    | FreeVictim(node: nat)
    // growHeight
    | GrowStart
    | GrowLoad(h: nat)
    | GrowCreate(h: nat, prev: nat)
    | GrowLock(h: nat, prev: nat, node: nat)
    | GrowFlags(h: nat, prev: nat, node: nat)
    | GrowCopy(h: nat, prev: nat, node: nat, at: nat)
    | GrowSwap(h: nat, prev: nat, node: nat)
    | GrowMark(h: nat, prev: nat, node: nat)
    | GrowUnlock(prev: nat)
    // find
    | Seek(k: Seeking)

  /** find: findNodeDownRight, then the node's mark; the result is 0 for nullptr. */
  datatype Seeking =
    | SeekHead(rank: nat)
    | SeekDown(rank: nat, ht: nat, pred: nat)
    | SeekLoad(rank: nat, at: nat, pred: nat)
    | SeekRight(rank: nat, at: nat, pred: nat, node: nat)
    | SeekMarked(rank: nat, node: nat)
    | SeekEnd(rank: nat, node: nat)

  datatype State = State(
    nodes: seq<Node>,
    head: nat,
    maxHeight: nat,
    threads: seq<PC>,
    // history
    chain: seq<seq<nat>>,       // the nodes of each layer, left to right
    retired: map<nat, nat>,     // former head -> thread that replaced it
    maker: map<nat, nat>)       // node -> thread that created it

  function Goto(s: State, t: nat, pc: PC): State
    requires t < |s.threads|
  {
    s.(threads := s.threads[t := pc])
  }

  predicate IsNode(s: State, n: nat) { 0 < n < |s.nodes| }

  /** n has a skip pointer at layer l. */
  predicate HasLayer(s: State, n: nat, l: nat) { IsNode(s, n) && l < s.nodes[n].height && l < |s.nodes[n].skip| }

  function SetNode(s: State, n: nat, x: Node): State
    requires IsNode(s, n)
  {
    s.(nodes := s.nodes[n := x])
  }

  function SetSkip(s: State, n: nat, l: nat, m: nat): State
    requires HasLayer(s, n, l)
  {
    SetNode(s, n, s.nodes[n].(skip := s.nodes[n].skip[l := m]))
  }

  /** How many nodes of a layer, from the left, rank below r. */
  function Below(nodes: seq<Node>, c: seq<nat>, r: nat): (k: nat)
    ensures k <= |c|
  {
    if c == [] || c[0] >= |nodes| || nodes[c[0]].rank >= r then 0 else 1 + Below(nodes, c[1..], r)
  }

  /** History of a node entering a layer. */
  function Enter(s: State, l: nat, n: nat): State
    requires IsNode(s, n) && l < |s.chain|
  {
    var k := Below(s.nodes, s.chain[l], s.nodes[n].rank);
    s.(chain := s.chain[l := s.chain[l][..k] + [n] + s.chain[l][k..]])
  }

  /** History of a node leaving a layer. */
  function Leave(s: State, l: nat, n: nat): State
    requires IsNode(s, n) && l < |s.chain|
  {
    var k := Below(s.nodes, s.chain[l], s.nodes[n].rank);
    if k < |s.chain[l]| then s.(chain := s.chain[l := s.chain[l][..k] + s.chain[l][k + 1..]]) else s
  }

  function NewNode(rank: nat, height: nat): Node {
    Node(rank, height, seq(height, _ => 0), false, false, None)
  }

  ghost predicate Init(s: State) {
    && s.head == 1 && |s.nodes| == 2 && 0 < s.nodes[1].height <= s.maxHeight && s.nodes[1] == NewNode(0, s.nodes[1].height)
    && s.nodes[0] == NewNode(0, 0)
    && s.chain == seq(s.nodes[1].height, _ => []) && s.retired == map[] && s.maker == map[]
    && (forall t | 0 <= t < |s.threads| :: s.threads[t] == Idle)
  }

  // ------------------------------------------------------------------------ find

  ghost predicate StepFindMax(s: State, s': State, t: nat)
    requires t < |s.threads|
  {
    && s.threads[t].FindMax? && IsNode(s, s.head) && s.nodes[s.head].height > 0
    && s' == Goto(s, t, FindHead(s.threads[t].op, s.nodes[s.head].height - 1))
  }

  /** The head may have grown since its height was read. */
  ghost predicate StepFindHead(s: State, s': State, t: nat)
    requires t < |s.threads|
  {
    var pc := s.threads[t];
    && pc.FindHead?
    && s' == Goto(s, t, Walk(Search(pc.op, pc.top, seq(pc.top + 1, _ => 0), seq(pc.top + 1, _ => 0), 0, 0), pc.top, s.head))
  }

  /** Records the point reached at a layer. */
  function Record(s: State, q: Search, l: nat, pred: nat, node: nat): Search
    requires l < |q.preds| && l < |q.succs| && node < |s.nodes|
  {
    var hit := q.found == 0 && node != 0 && s.nodes[node].rank == q.op.rank;
    var found := if hit then node else q.found;
    q.(preds := q.preds[l := pred], succs := q.succs[l := if found != 0 then found else node],
       found := found, layer := if hit then l else q.layer)
  }

  /** Loads pred->skip(layer); goes right, or down, or is done. */
  ghost predicate StepWalk(s: State, s': State, t: nat)
    requires t < |s.threads|
  {
    var pc := s.threads[t];
    && pc.Walk? && HasLayer(s, pc.pred, pc.at) && pc.at < |pc.q.preds| && pc.at < |pc.q.succs|
    && s.nodes[pc.pred].skip[pc.at] < |s.nodes| && (pc.q.op.victim != 0 ==> IsNode(s, pc.q.op.victim))
    && var node := s.nodes[pc.pred].skip[pc.at];
       s' == Goto(s, t, if node != 0 && s.nodes[node].rank < pc.q.op.rank then Walk(pc.q, pc.at, node)
                        else if pc.at > 0 then Walk(Record(s, pc.q, pc.at, pc.pred, node), pc.at - 1, pc.pred)
                        else Found(s, Record(s, pc.q, pc.at, pc.pred, node)))
  }

  /** What add and remove do with the result.  When a victim is marked already, only its
      predecessors matter. */
  function Found(s: State, q: Search): PC
    requires q.op.victim != 0 ==> IsNode(s, q.op.victim)
  {
    if q.op.removing then
      if q.op.victim != 0 then Lock(q, s.nodes[q.op.victim].height, 0)
      else if q.found == 0 then Idle
      else RemoveLinked(q)
    else if q.found != 0 then AddFound(q.op, q.found)
    else Choose(q)
  }

  // ------------------------------------------------------------------- key found

  ghost predicate StepAddFound(s: State, s': State, t: nat)
    requires t < |s.threads|
  {
    var pc := s.threads[t];
    && pc.AddFound? && IsNode(s, pc.node)
    && s' == Goto(s, t, if s.nodes[pc.node].marked then FindMax(pc.op) else AddWait(pc.op, pc.node))
  }

  ghost predicate StepAddWait(s: State, s': State, t: nat)
    requires t < |s.threads|
  {
    var pc := s.threads[t];
    && pc.AddWait? && IsNode(s, pc.node)
    && s' == if s.nodes[pc.node].linked then Goto(s, t, Idle) else s
  }

  /** okToDelete: fully linked, met at its top layer, not marked. */
  ghost predicate StepRemoveLinked(s: State, s': State, t: nat)
    requires t < |s.threads|
  {
    var pc := s.threads[t];
    && pc.RemoveLinked? && IsNode(s, pc.q.found)
    && s' == Goto(s, t, if s.nodes[pc.q.found].linked && s.nodes[pc.q.found].height == pc.q.layer + 1
                        then RemoveMarked(pc.q) else Idle)
  }

  ghost predicate StepRemoveMarked(s: State, s': State, t: nat)
    requires t < |s.threads|
  {
    var pc := s.threads[t];
    && pc.RemoveMarked? && IsNode(s, pc.q.found)
    && s' == Goto(s, t, if s.nodes[pc.q.found].marked then Idle else RemoveLock(pc.q))
  }

  /** A lock is taken when it is free; otherwise the thread waits. */
  function Acquire(s: State, n: nat, t: nat): State
    requires IsNode(s, n)
  {
    SetNode(s, n, s.nodes[n].(holder := Some(t)))
  }

  function Release(s: State, n: nat): State
    requires IsNode(s, n)
  {
    SetNode(s, n, s.nodes[n].(holder := None))
  }

  ghost predicate StepRemoveLock(s: State, s': State, t: nat)
    requires t < |s.threads|
  {
    var pc := s.threads[t];
    && pc.RemoveLock? && IsNode(s, pc.q.found) && s.nodes[pc.q.found].holder == None
    && s' == Goto(Acquire(s, pc.q.found, t), t, RemoveCheck(pc.q))
  }

  ghost predicate StepRemoveCheck(s: State, s': State, t: nat)
    requires t < |s.threads|
  {
    var pc := s.threads[t];
    && pc.RemoveCheck? && IsNode(s, pc.q.found)
    && s' == Goto(s, t, if s.nodes[pc.q.found].marked then FreeVictim(pc.q.found) else RemoveMark(pc.q))
  }

  ghost predicate StepRemoveMark(s: State, s': State, t: nat)
    requires t < |s.threads|
  {
    var pc := s.threads[t];
    && pc.RemoveMark? && IsNode(s, pc.q.found)
    && s' == Goto(SetNode(s, pc.q.found, s.nodes[pc.q.found].(marked := true)), t,
                  Lock(pc.q.(op := pc.q.op.(victim := pc.q.found)), s.nodes[pc.q.found].height, 0))
  }

  ghost predicate StepFreeVictim(s: State, s': State, t: nat)
    requires t < |s.threads|
  {
    var pc := s.threads[t];
    && pc.FreeVictim? && IsNode(s, pc.node)
    && s' == Goto(Release(s, pc.node), t, Idle)
  }

  // --------------------------------------------------------------------- locking

  ghost predicate StepChoose(s: State, s': State, t: nat, h: nat)
    requires t < |s.threads|
  {
    var pc := s.threads[t];
    && pc.Choose? && 0 < h <= pc.q.top + 1
    && s' == Goto(s, t, Lock(pc.q, h, 0))
  }

  /** A predecessor shared with the layer below is locked already. */
  predicate Shared(q: Search, l: nat) {
    0 < l < |q.preds| && q.preds[l] == q.preds[l - 1]
  }

  ghost predicate StepLock(s: State, s': State, t: nat)
    requires t < |s.threads|
  {
    var pc := s.threads[t];
    && pc.Lock? && pc.at < |pc.q.preds| && IsNode(s, pc.q.preds[pc.at])
    && if Shared(pc.q, pc.at) then s' == Goto(s, t, LockMarked(pc.q, pc.h, pc.at))
       else && s.nodes[pc.q.preds[pc.at]].holder == None
            && s' == Goto(Acquire(s, pc.q.preds[pc.at], t), t, LockMarked(pc.q, pc.h, pc.at))
  }

  ghost predicate StepLockMarked(s: State, s': State, t: nat)
    requires t < |s.threads|
  {
    var pc := s.threads[t];
    && pc.LockMarked? && pc.at < |pc.q.preds| && IsNode(s, pc.q.preds[pc.at])
    && s' == Goto(s, t, if s.nodes[pc.q.preds[pc.at]].marked then Unlock(pc.q, pc.at + 1, Retry)
                        else LockSkip(pc.q, pc.h, pc.at))
  }

  /** All layers locked and valid. */
  function LockNext(q: Search, h: nat, l: nat): PC {
    if l + 1 < h then Lock(q, h, l + 1)
    else if q.op.removing then CutRead(q, h, l)
    else Create(q, h)
  }

  ghost predicate StepLockSkip(s: State, s': State, t: nat)
    requires t < |s.threads|
  {
    var pc := s.threads[t];
    && pc.LockSkip? && pc.at < |pc.q.preds| && pc.at < |pc.q.succs| && HasLayer(s, pc.q.preds[pc.at], pc.at)
    && s' == Goto(s, t, if s.nodes[pc.q.preds[pc.at]].skip[pc.at] != pc.q.succs[pc.at] then Unlock(pc.q, pc.at + 1, Retry)
                        else if pc.q.op.removing then LockNext(pc.q, pc.h, pc.at)
                        else LockSucc(pc.q, pc.h, pc.at))
  }

  ghost predicate StepLockSucc(s: State, s': State, t: nat)
    requires t < |s.threads|
  {
    var pc := s.threads[t];
    && pc.LockSucc? && pc.at < |pc.q.succs| && pc.q.succs[pc.at] < |s.nodes|
    && s' == Goto(s, t, if pc.q.succs[pc.at] != 0 && s.nodes[pc.q.succs[pc.at]].marked then Unlock(pc.q, pc.at + 1, Retry)
                        else LockNext(pc.q, pc.h, pc.at))
  }

  /** Releases the guards from the top layer down. */
  ghost predicate StepUnlock(s: State, s': State, t: nat)
    requires t < |s.threads|
  {
    var pc := s.threads[t];
    && pc.Unlock? && pc.n <= |pc.q.preds|
    && if pc.n > 0 then
         && IsNode(s, pc.q.preds[pc.n - 1])
         && s' == if Shared(pc.q, pc.n - 1) then Goto(s, t, pc.(n := pc.n - 1))
                  else Goto(Release(s, pc.q.preds[pc.n - 1]), t, pc.(n := pc.n - 1))
       else match pc.after
         case Retry => s' == Goto(s, t, FindMax(pc.q.op))
         case Added => s' == Goto(s, t, Idle) || s' == Goto(s, t, GrowStart)
         case Removed => s' == Goto(s, t, FreeVictim(pc.q.op.victim))
  }

  // --------------------------------------------------------------------- linking

  ghost predicate StepCreate(s: State, s': State, t: nat)
    requires t < |s.threads|
  {
    var pc := s.threads[t];
    && pc.Create?
    && s' == Goto(s.(nodes := s.nodes + [NewNode(pc.q.op.rank, pc.h)], maker := s.maker[|s.nodes| := t]), t,
                  LinkNew(pc.q, pc.h, |s.nodes|, 0))
  }

  ghost predicate StepLinkNew(s: State, s': State, t: nat)
    requires t < |s.threads|
  {
    var pc := s.threads[t];
    && pc.LinkNew? && HasLayer(s, pc.node, pc.at) && pc.at < |pc.q.succs|
    && s' == Goto(SetSkip(s, pc.node, pc.at, pc.q.succs[pc.at]), t, LinkPred(pc.q, pc.h, pc.node, pc.at))
  }

  ghost predicate StepLinkPred(s: State, s': State, t: nat)
    requires t < |s.threads|
  {
    var pc := s.threads[t];
    && pc.LinkPred? && pc.at < |pc.q.preds| && HasLayer(s, pc.q.preds[pc.at], pc.at) && IsNode(s, pc.node) && pc.at < |s.chain|
    && s' == Goto(Enter(SetSkip(s, pc.q.preds[pc.at], pc.at, pc.node), pc.at, pc.node), t,
                  if pc.at + 1 < pc.h then LinkNew(pc.q, pc.h, pc.node, pc.at + 1) else LinkFlag(pc.q, pc.h, pc.node))
  }

  ghost predicate StepLinkFlag(s: State, s': State, t: nat)
    requires t < |s.threads|
  {
    var pc := s.threads[t];
    && pc.LinkFlag? && IsNode(s, pc.node)
    && s' == Goto(SetNode(s, pc.node, s.nodes[pc.node].(linked := true)), t, Unlock(pc.q, pc.h, Added))
  }

  // ------------------------------------------------------------------- unlinking

  ghost predicate StepCutRead(s: State, s': State, t: nat)
    requires t < |s.threads|
  {
    var pc := s.threads[t];
    && pc.CutRead? && HasLayer(s, pc.q.op.victim, pc.at)
    && s' == Goto(s, t, CutWrite(pc.q, pc.h, pc.at, s.nodes[pc.q.op.victim].skip[pc.at]))
  }

  ghost predicate StepCutWrite(s: State, s': State, t: nat)
    requires t < |s.threads|
  {
    var pc := s.threads[t];
    && pc.CutWrite? && pc.at < |pc.q.preds| && HasLayer(s, pc.q.preds[pc.at], pc.at)
    && IsNode(s, pc.q.op.victim) && pc.at < |s.chain|
    && s' == Goto(Leave(SetSkip(s, pc.q.preds[pc.at], pc.at, pc.next), pc.at, pc.q.op.victim), t,
                  if pc.at > 0 then CutRead(pc.q, pc.h, pc.at - 1) else Unlock(pc.q, pc.h, Removed))
  }

  // ---------------------------------------------------------------------- growth

  ghost predicate StepGrowStart(s: State, s': State, t: nat)
    requires t < |s.threads|
  {
    && s.threads[t].GrowStart? && IsNode(s, s.head)
    && s' == Goto(s, t, if s.nodes[s.head].height < s.maxHeight then GrowLoad(s.nodes[s.head].height + 1) else Idle)
  }

  ghost predicate StepGrowLoad(s: State, s': State, t: nat)
    requires t < |s.threads|
  {
    var pc := s.threads[t];
    && pc.GrowLoad? && IsNode(s, s.head)
    && s' == Goto(s, t, if s.nodes[s.head].height >= pc.h then Idle else GrowCreate(pc.h, s.head))
  }

  ghost predicate StepGrowCreate(s: State, s': State, t: nat)
    requires t < |s.threads|
  {
    var pc := s.threads[t];
    && pc.GrowCreate?
    && s' == Goto(s.(nodes := s.nodes + [NewNode(0, pc.h)], maker := s.maker[|s.nodes| := t]), t,
                  GrowLock(pc.h, pc.prev, |s.nodes|))
  }

  ghost predicate StepGrowLock(s: State, s': State, t: nat)
    requires t < |s.threads|
  {
    var pc := s.threads[t];
    && pc.GrowLock? && IsNode(s, pc.prev) && s.nodes[pc.prev].holder == None
    && s' == Goto(Acquire(s, pc.prev, t), t, GrowFlags(pc.h, pc.prev, pc.node))
  }

  /** copyHead copies the flags and then the pointers. */
  ghost predicate StepGrowFlags(s: State, s': State, t: nat)
    requires t < |s.threads|
  {
    var pc := s.threads[t];
    && pc.GrowFlags? && IsNode(s, pc.prev) && IsNode(s, pc.node)
    && s' == Goto(SetNode(s, pc.node, s.nodes[pc.node].(marked := s.nodes[pc.prev].marked, linked := s.nodes[pc.prev].linked)), t,
                  GrowCopy(pc.h, pc.prev, pc.node, 0))
  }

  ghost predicate StepGrowCopy(s: State, s': State, t: nat)
    requires t < |s.threads|
  {
    var pc := s.threads[t];
    && pc.GrowCopy? && IsNode(s, pc.prev) && (pc.at < s.nodes[pc.prev].height ==> HasLayer(s, pc.prev, pc.at) && HasLayer(s, pc.node, pc.at))
    && s' == if pc.at < s.nodes[pc.prev].height
             then Goto(SetSkip(s, pc.node, pc.at, s.nodes[pc.prev].skip[pc.at]), t, pc.(at := pc.at + 1))
             else Goto(s, t, GrowSwap(pc.h, pc.prev, pc.node))
  }

  ghost predicate StepGrowSwap(s: State, s': State, t: nat)
    requires t < |s.threads|
  {
    var pc := s.threads[t];
    && pc.GrowSwap?
    && s' == if s.head == pc.prev
             then Goto(s.(head := pc.node, retired := s.retired[pc.prev := t],
                          chain := s.chain + seq(if pc.h > |s.chain| then pc.h - |s.chain| else 0, _ => [])), t,
                       GrowMark(pc.h, pc.prev, pc.node))
             else Goto(s, t, GrowUnlock(pc.prev))
  }

  ghost predicate StepGrowMark(s: State, s': State, t: nat)
    requires t < |s.threads|
  {
    var pc := s.threads[t];
    && pc.GrowMark? && IsNode(s, pc.prev)
    && s' == Goto(SetNode(s, pc.prev, s.nodes[pc.prev].(marked := true)), t, GrowUnlock(pc.prev))
  }

  ghost predicate StepGrowUnlock(s: State, s': State, t: nat)
    requires t < |s.threads|
  {
    var pc := s.threads[t];
    && pc.GrowUnlock? && IsNode(s, pc.prev)
    && s' == Goto(Release(s, pc.prev), t, Idle)
  }

  // ------------------------------------------------------------------- find, for access

  /** Where a find goes next. */
  function SeekNext(s: State, k: Seeking): Seeking
    requires SeekFits(s, k)
  {
    match k
    case SeekHead(r) => SeekDown(r, s.nodes[s.head].height, s.head)
    case SeekDown(r, ht, pred) =>
      // down while the next node ranks higher
      if ht == 0 then SeekEnd(r, 0)
      else
        var node := s.nodes[pred].skip[ht - 1];
        if node == 0 || s.nodes[node].rank > r then SeekDown(r, ht - 1, pred) else SeekLoad(r, ht - 1, pred)
    case SeekLoad(r, l, pred) =>
      // the pointer is loaded again, and may be another one by now
      SeekRight(r, l, pred, s.nodes[pred].skip[l])
    case SeekRight(r, l, pred, node) =>
      // right while the node ranks lower
      if node != 0 && s.nodes[node].rank < r then SeekRight(r, l, node, s.nodes[node].skip[l])
      else if node != 0 && s.nodes[node].rank == r then SeekMarked(r, node)
      else SeekDown(r, l, pred)
    case SeekMarked(r, node) => SeekEnd(r, if s.nodes[node].marked then 0 else node)
    case SeekEnd(_, _) => k
  }

  predicate SeekFits(s: State, k: Seeking) {
    match k
    case SeekHead(_) => IsNode(s, s.head)
    case SeekDown(_, ht, pred) => ht > 0 ==> HasLayer(s, pred, ht - 1) && s.nodes[pred].skip[ht - 1] < |s.nodes|
    case SeekLoad(_, l, pred) => HasLayer(s, pred, l)
    case SeekRight(r, l, _, node) => node < |s.nodes| && (node != 0 && s.nodes[node].rank < r ==> HasLayer(s, node, l))
    case SeekMarked(_, node) => IsNode(s, node)
    case SeekEnd(_, _) => true
  }

  ghost predicate StepSeek(s: State, s': State, t: nat)
    requires t < |s.threads|
  {
    && s.threads[t].Seek? && SeekFits(s, s.threads[t].k)
    && s' == Goto(s, t, if s.threads[t].k.SeekEnd? then Idle else Seek(SeekNext(s, s.threads[t].k)))
  }

  // ------------------------------------------------------------------------ runs

  ghost predicate StepStart(s: State, s': State, t: nat, rank: nat)
    requires t < |s.threads|
  {
    && s.threads[t].Idle? && rank > 0
    && (s' == Goto(s, t, FindMax(Op(rank, false, 0))) || s' == Goto(s, t, FindMax(Op(rank, true, 0)))
        || s' == Goto(s, t, Seek(SeekHead(rank))))
  }

  ghost predicate Step(s: State, s': State, t: nat)
    requires t < |s.threads|
  {
    match s.threads[t]
    case Idle => exists rank: nat :: StepStart(s, s', t, rank)
    case FindMax(_) => StepFindMax(s, s', t)
    case FindHead(_, _) => StepFindHead(s, s', t)
    case Walk(_, _, _) => StepWalk(s, s', t)
    case AddFound(_, _) => StepAddFound(s, s', t)
    case AddWait(_, _) => StepAddWait(s, s', t)
    case RemoveLinked(_) => StepRemoveLinked(s, s', t)
    case RemoveMarked(_) => StepRemoveMarked(s, s', t)
    case RemoveLock(_) => StepRemoveLock(s, s', t)
    case RemoveCheck(_) => StepRemoveCheck(s, s', t)
    case RemoveMark(_) => StepRemoveMark(s, s', t)
    case Choose(_) => exists h: nat :: StepChoose(s, s', t, h)
    case Lock(_, _, _) => StepLock(s, s', t)
    case LockMarked(_, _, _) => StepLockMarked(s, s', t)
    case LockSkip(_, _, _) => StepLockSkip(s, s', t)
    case LockSucc(_, _, _) => StepLockSucc(s, s', t)
    case Unlock(_, _, _) => StepUnlock(s, s', t)
    case Create(_, _) => StepCreate(s, s', t)
    case LinkNew(_, _, _, _) => StepLinkNew(s, s', t)
    case LinkPred(_, _, _, _) => StepLinkPred(s, s', t)
    case LinkFlag(_, _, _) => StepLinkFlag(s, s', t)
    case CutRead(_, _, _) => StepCutRead(s, s', t)
    case CutWrite(_, _, _, _) => StepCutWrite(s, s', t)
    case FreeVictim(_) => StepFreeVictim(s, s', t)
    case GrowStart => StepGrowStart(s, s', t)
    case GrowLoad(_) => StepGrowLoad(s, s', t)
    case GrowCreate(_, _) => StepGrowCreate(s, s', t)
    case GrowLock(_, _, _) => StepGrowLock(s, s', t)
    case GrowFlags(_, _, _) => StepGrowFlags(s, s', t)
    case GrowCopy(_, _, _, _) => StepGrowCopy(s, s', t)
    case GrowSwap(_, _, _) => StepGrowSwap(s, s', t)
    case GrowMark(_, _, _) => StepGrowMark(s, s', t)
    case GrowUnlock(_) => StepGrowUnlock(s, s', t)
    case Seek(_) => StepSeek(s, s', t)
  }

  ghost predicate StepBy(run: seq<State>, k: nat, t: nat)
    requires k + 1 < |run|
  {
    t < |run[k].threads| && Step(run[k], run[k + 1], t)
  }

  ghost predicate NextAt(run: seq<State>, k: nat)
    requires k + 1 < |run|
  {
    exists t: nat :: StepBy(run, k, t)
  }

  ghost predicate IsRun(run: seq<State>) {
    && |run| > 0 && Init(run[0])
    && forall k | 0 <= k < |run| - 1 :: NextAt(run, k)
  }
}
