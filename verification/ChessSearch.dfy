/**
 * The forced-mate search of chess/one_round.cc with the two bound-pair caches of
 * chess/solution_cache.cc, over any game with finitely many moves per position.
 *
 * P are the positions with the first ("max") side to move, Q those with the other side to
 * move.  Signatures are any functions.  The search is safe whatever they are; its answers are
 * right on every set of positions, closed under moves, on which equal signatures mean equal
 * mate values.
 */
module ChessSearch {
  import opened Common

  const NONE: int := 0
  const STALLMATE: int := -2
  const CHECKMATE: int := 100
  const INT_MAX: int := 0x7FFF_FFFF

  // ---------------------------------------------------------------------- the game

  datatype Game<!P, !Q> = Game(
    maxMoves: P -> seq<Q>,
    minMoves: Q -> seq<P>,
    maxChecked: P -> bool,
    minChecked: Q -> bool,
    sigP: P -> nat,
    sigQ: Q -> nat,
    circular: (P, Q, P, Q) -> bool)   // (parent, its move, position, move): takes the move back

  /** Position p came about by the reply to move q0 in position p0, and its move q is discarded. */
  ghost predicate TakesBack<P(!new), Q(!new)>(g: Game<P, Q>, x: (P, Q, P, Q)) {
    g.circular(x.0, x.1, x.2, x.3) && x.1 in g.maxMoves(x.0) && x.2 in g.minMoves(x.1) && x.3 in g.maxMoves(x.2)
  }

  /** A search of p with n levels left expands y for another round. */
  ghost predicate Within<P(!new), Q(!new)>(g: Game<P, Q>, p: P, n: int, y: P)
    decreases n
  {
    n > 1 && (y == p || exists q, next :: q in g.maxMoves(p) && next in g.minMoves(q) && Within(g, next, n - 1, y))
  }

  /** A search of p, reached from parent, may discard x. */
  ghost predicate MayDiscard<P(!new), Q(!new)>(g: Game<P, Q>, parent: Option<(P, Q)>, p: P, n: int, x: (P, Q, P, Q)) {
    TakesBack(g, x) && (Within(g, p, n, x.0) || (parent == Some((x.0, x.1)) && x.2 == p))
  }

  /** What was discarded since had to be; looked up only where Discarded is mentioned. */
  ghost predicate OnlyDiscards<P(!new), Q(!new)>(
      g: Game<P, Q>, before: set<(P, Q, P, Q)>, after: set<(P, Q, P, Q)>, parent: Option<(P, Q)>, p: P, n: int)
  {
    before <= after && forall a | a == after :: Discarded(g, before, a, parent, p, n)
  }

  ghost predicate Discarded<P(!new), Q(!new)>(
      g: Game<P, Q>, before: set<(P, Q, P, Q)>, after: set<(P, Q, P, Q)>, parent: Option<(P, Q)>, p: P, n: int)
  {
    forall x | x in after :: x in before || MayDiscard(g, parent, p, n, x)
  }

  lemma DiscardsMore<P(!new), Q(!new)>(
      g: Game<P, Q>, a: set<(P, Q, P, Q)>, b: set<(P, Q, P, Q)>, c: set<(P, Q, P, Q)>, parent: Option<(P, Q)>, p: P, n: int)
    requires OnlyDiscards(g, a, b, parent, p, n) && OnlyDiscards(g, b, c, parent, p, n)
    ensures OnlyDiscards(g, a, c, parent, p, n)
  {
    assert Discarded(g, a, b, parent, p, n) && Discarded(g, b, c, parent, p, n);
  }

  /** A search below q is one below p. */
  lemma DiscardsBelow<P(!new), Q(!new)>(
      g: Game<P, Q>, a: set<(P, Q, P, Q)>, b: set<(P, Q, P, Q)>, p: P, q: Q, next: P, n: int)
    requires OnlyDiscards(g, a, b, Some((p, q)), next, n - 1) && n > 1 && q in g.maxMoves(p) && next in g.minMoves(q)
    ensures OnlyDiscards(g, a, b, None, p, n)
  {
    assert Discarded(g, a, b, Some((p, q)), next, n - 1);
  }

  lemma DiscardsToo<P(!new), Q(!new)>(
      g: Game<P, Q>, a: set<(P, Q, P, Q)>, b: set<(P, Q, P, Q)>, parent: Option<(P, Q)>, p: P, n: int)
    requires OnlyDiscards(g, a, b, None, p, n)
    ensures OnlyDiscards(g, a, b, parent, p, n)
  {
    assert Discarded(g, a, b, None, p, n);
  }

  /** No move in the lines of a search takes the one before it back. */
  ghost predicate NoneTakesBack<P(!new), Q(!new)>(g: Game<P, Q>, p: P, n: int) {
    forall x | TakesBack(g, x) :: !Within(g, p, n, x.0)
  }

  /** Then nothing is discarded. */
  lemma NothingDiscarded<P(!new), Q(!new)>(g: Game<P, Q>, before: set<(P, Q, P, Q)>, after: set<(P, Q, P, Q)>, p: P, n: int)
    requires OnlyDiscards(g, before, after, None, p, n) && NoneTakesBack(g, p, n)
    ensures after == before
  {
    assert Discarded(g, before, after, None, p, n);
  }

  /** The first side can force mate within n of its own moves. */
  ghost predicate MateMax<P(!new), Q(!new)>(g: Game<P, Q>, p: P, n: int)
    decreases n, 1
  {
    n > 0 && exists q :: q in g.maxMoves(p) && MateMin(g, q, n)
  }

  /** The same with the other side to move, after the first of the n moves. */
  ghost predicate MateMin<P(!new), Q(!new)>(g: Game<P, Q>, q: Q, n: int)
    decreases n, 0
  {
    && n > 0
    && if g.minMoves(q) == [] then g.minChecked(q)
       else n > 1 && forall p | p in g.minMoves(q) :: MateMax(g, p, n - 1)
  }

  /** More moves never hurt. */
  lemma {:induction false} MateMaxMonotone<P(!new), Q(!new)>(g: Game<P, Q>, p: P, n: int, k: int)
    requires MateMax(g, p, n) && n <= k
    ensures MateMax(g, p, k)
    decreases n, 1
  {
    var q :| q in g.maxMoves(p) && MateMin(g, q, n);
    MateMinMonotone(g, q, n, k);
  }

  lemma {:induction false} MateMinMonotone<P(!new), Q(!new)>(g: Game<P, Q>, q: Q, n: int, k: int)
    requires MateMin(g, q, n) && n <= k
    ensures MateMin(g, q, k)
    decreases n, 0
  {
    if g.minMoves(q) != [] {
      forall p | p in g.minMoves(q) ensures MateMax(g, p, k - 1) {
        MateMaxMonotone(g, p, n - 1, k - 1);
      }
    }
  }

  /** Positions that a search may meet with so many levels left. */
  datatype Domain<!P, !Q> = Domain(inP: (P, int) -> bool, inQ: (Q, int) -> bool)

  ghost predicate InP<P, Q>(d: Domain<P, Q>, p: P) { exists n :: d.inP(p, n) }

  ghost predicate InQ<P, Q>(d: Domain<P, Q>, q: Q) { exists n :: d.inQ(q, n) }

  /** Moves do not lead out of the domain. */
  ghost predicate Closed<P(!new), Q(!new)>(g: Game<P, Q>, d: Domain<P, Q>) {
    && (forall p, q, n | d.inP(p, n) && q in g.maxMoves(p) :: d.inQ(q, n))
    && (forall q, p, n | n > 1 && d.inQ(q, n) && p in g.minMoves(q) :: d.inP(p, n - 1))
  }

  /** In the domain equal signatures mean equal mate values. */
  ghost predicate HashOk<P(!new), Q(!new)>(g: Game<P, Q>, d: Domain<P, Q>) {
    && (forall p, p', n | InP(d, p) && InP(d, p') && g.sigP(p) == g.sigP(p') :: MateMax(g, p, n) <==> MateMax(g, p', n))
    && (forall q, q', n | InQ(d, q) && InQ(d, q') && g.sigQ(q) == g.sigQ(q') :: MateMin(g, q, n) <==> MateMin(g, q', n))
  }

  // ---------------------------------------------------------------- bound-pair caches

  /** No mate within lo, mate within hi. */
  datatype Bounds = Bounds(lo: int, hi: int)

  type Signatures = map<nat, Bounds>

  /** getScoreFromCache. */
  function Lookup(c: Signatures, sig: nat, height: int): Option<int> {
    if sig !in c then None
    else if c[sig].lo >= height then Some(NONE)
    else if c[sig].hi <= height then Some(CHECKMATE)
    else None
  }

  /** updateCache, fall-through included: a failure at a height that lo already covers would
      lower hi. */
  function Update(c: Signatures, sig: nat, height: int, score: int, minStoreLevel: int): Signatures {
    if height < minStoreLevel then c
    else if sig in c then
      if score < CHECKMATE && c[sig].lo < height then c[sig := c[sig].(lo := height)]
      else if c[sig].hi > height then c[sig := c[sig].(hi := height)]
      else c
    else c[sig := if score < CHECKMATE then Bounds(height, INT_MAX) else Bounds(-INT_MAX, height)]
  }

  function Lo(c: Signatures, sig: nat): int { if sig in c then c[sig].lo else -INT_MAX }

  function Hi(c: Signatures, sig: nat): int { if sig in c then c[sig].hi else INT_MAX }

  /** Lower bounds above n are old. */
  ghost predicate LowOnly(c: Signatures, c': Signatures, n: int) {
    forall sig :: Lo(c', sig) > n ==> Lo(c', sig) == Lo(c, sig)
  }

  /** Bounds only get closer. */
  ghost predicate Sharper(c: Signatures, c': Signatures) { forall sig :: Lo(c, sig) <= Lo(c', sig) && Hi(c', sig) <= Hi(c, sig) }

  ghost predicate NewerIs(c: Signatures, c': Signatures, n: int) { LowOnly(c, c', n) && Sharper(c, c') }

  /** Both, looked up only where NewerIs is mentioned. */
  ghost predicate Newer(c: Signatures, c': Signatures, n: int) { forall x: Signatures | x == c' :: NewerIs(c, x, n) }

  lemma NewerMore(a: Signatures, b: Signatures, c: Signatures, n: int, m: int, k: int)
    requires Newer(a, b, n) && Newer(b, c, m) && n <= k && m <= k
    ensures Newer(a, c, k)
  {
    assert NewerIs(a, b, n) && NewerIs(b, c, m);
  }

  lemma NewerSelf(c: Signatures, n: int)
    ensures Newer(c, c, n)
  {
  }

  /** A lookup at height n has an answer. */
  predicate Settled(c: Signatures, sig: nat, n: int) { Lo(c, sig) >= n || Hi(c, sig) <= n }

  /** What was settled, or known to fail, stays so. */
  lemma NewerSettled(c: Signatures, c': Signatures, n: int, sig: nat)
    requires Newer(c, c', n)
    ensures Settled(c, sig, n) ==> Settled(c', sig, n)
    ensures Lo(c, sig) >= n ==> Lo(c', sig) >= n
  {
    assert NewerIs(c, c', n);
  }

  /** An update after a missed lookup at the same height changes one bound as intended. */
  lemma UpdateAfterMiss(c: Signatures, sig: nat, height: int, score: int, minStoreLevel: int)
    requires Lo(c, sig) < height && 0 < height < INT_MAX && score <= CHECKMATE
    ensures var c' := Update(c, sig, height, score, minStoreLevel);
            && (forall s | s != sig :: Lo(c', s) == Lo(c, s) && Hi(c', s) == Hi(c, s))
            && (score < CHECKMATE ==>
                  Hi(c', sig) == Hi(c, sig) && (Lo(c', sig) == Lo(c, sig) || Lo(c', sig) == height))
            && (score == CHECKMATE ==>
                  Lo(c', sig) == Lo(c, sig) && (Hi(c', sig) == Hi(c, sig) || Hi(c', sig) == height))
            && NewerIs(c, c', height) && Newer(c, c', height)
  {
  }

  /** A reported failure keeps the upper bound exactly when nothing is stored, or the failure
      is news, or the upper bound was no higher anyway. */
  lemma FailureKeepsUpper(c: Signatures, sig: nat, height: int, score: int, minStoreLevel: int)
    requires score < CHECKMATE
    ensures Hi(Update(c, sig, height, score, minStoreLevel), sig) == Hi(c, sig) <==>
            height < minStoreLevel || sig !in c || c[sig].lo < height || c[sig].hi <= height
  {
  }

  /** An entry without a known mate is read as one exactly from INT_MAX levels on. */
  lemma UnknownReadAsMate(c: Signatures, sig: nat, height: int)
    requires sig in c && c[sig].hi == INT_MAX
    ensures Lookup(c, sig, height) == Some(CHECKMATE) <==> c[sig].lo < height && INT_MAX <= height
    ensures Lookup(Update(map[], sig, 5, NONE, 2), sig, INT_MAX) == Some(CHECKMATE)
  {
  }

  /** Without that miss the update can record a mate that was not found. */
  lemma StrayUpdate(sig: nat)
    ensures var c := map[sig := Bounds(5, INT_MAX)];
            Lookup(Update(c, sig, 3, NONE, 2), sig, 6) == Some(CHECKMATE)
  {
  }

  // ------------------------------------------------------------------ solution forest

  datatype Ply<P, Q> = MaxMove(q: Q) | MinMove(p: P)

  datatype Node<P, Q> = Node(ply: Ply<P, Q>, children: seq<nat>)

  /** Child c of node i is the reply p, followed by the solution stored for p. */
  ghost predicate Answers<P(!new), Q(!new)>(g: Game<P, Q>, f: seq<Node<P, Q>>, sm: map<nat, nat>, i: nat, c: nat, p: P) {
    g.sigP(p) in sm && sm[g.sigP(p)] < i && c < |f| && f[c] == Node(MinMove(p), [sm[g.sigP(p)]])
  }

  /** The first side's move q forces mate in a position with signature sig. */
  ghost predicate Wins<P(!new), Q(!new)>(g: Game<P, Q>, sig: nat, q: Q) {
    exists p, n :: g.sigP(p) == sig && q in g.maxMoves(p) && MateMin(g, q, n)
  }

  /** The solution stored for sig begins with a winning move and answers every reply. */
  ghost predicate Solved<P(!new), Q(!new)>(g: Game<P, Q>, f: seq<Node<P, Q>>, sm: map<nat, nat>, sig: nat) {
    && sig in sm && sm[sig] < |f| && f[sm[sig]].ply.MaxMove? && Wins(g, sig, f[sm[sig]].ply.q)
    && var replies, children := g.minMoves(f[sm[sig]].ply.q), f[sm[sig]].children;
    && |replies| <= |children|
    && forall k | 0 <= k < |replies| :: Answers(g, f, sm, sm[sig], children[k], replies[k])
  }

  ghost predicate Whole<P(!new), Q(!new)>(g: Game<P, Q>, f: seq<Node<P, Q>>, sm: map<nat, nat>) {
    forall sig | sig in sm :: Solved(g, f, sm, sig)
  }

  /** Nodes are only added, and only moves of the first side get more children. */
  ghost predicate Grows<P(!new), Q(!new)>(f: seq<Node<P, Q>>, f': seq<Node<P, Q>>) {
    |f| <= |f'| && forall i | 0 <= i < |f| ::
      f'[i].ply == f[i].ply && (f[i].ply.MinMove? ==> f'[i] == f[i]) && f[i].children <= f'[i].children
  }

  ghost predicate Keeps(sm: map<nat, nat>, sm': map<nat, nat>) { forall k | k in sm :: k in sm' && sm'[k] == sm[k] }

  lemma SolvedKept<P(!new), Q(!new)>(g: Game<P, Q>, f: seq<Node<P, Q>>, sm: map<nat, nat>, f': seq<Node<P, Q>>, sm': map<nat, nat>, sig: nat)
    requires Solved(g, f, sm, sig) && Grows(f, f') && Keeps(sm, sm')
    ensures Solved(g, f', sm', sig)
  {
    var i := sm[sig];
    var replies := g.minMoves(f[i].ply.q);
    forall k | 0 <= k < |replies| ensures Answers(g, f', sm', i, f'[i].children[k], replies[k]) {
      assert Answers(g, f, sm, i, f[i].children[k], replies[k]);
    }
  }

  /** The stored moves, played from node i against any replies, end in mate. */
  ghost predicate Mates<P(!new), Q(!new)>(g: Game<P, Q>, f: seq<Node<P, Q>>, sm: map<nat, nat>, i: nat)
    decreases i
  {
    && i < |f| && f[i].ply.MaxMove?
    && var replies := g.minMoves(f[i].ply.q);
    && (replies == [] ==> g.minChecked(f[i].ply.q))
    && forall k | 0 <= k < |replies| ::
      && k < |f[i].children| && f[i].children[k] < |f| && f[f[i].children[k]].ply == MinMove(replies[k])
      && g.sigP(replies[k]) in sm && sm[g.sigP(replies[k])] < i && f[f[i].children[k]].children == [sm[g.sigP(replies[k])]]
      && Mates(g, f, sm, sm[g.sigP(replies[k])])
  }

  /** When every stored solution answers every reply, following one from anywhere mates. */
  lemma {:induction false} StoredSolutionMates<P(!new), Q(!new)>(g: Game<P, Q>, f: seq<Node<P, Q>>, sm: map<nat, nat>, sig: nat)
    requires sig in sm && Whole(g, f, sm)
    ensures Mates(g, f, sm, sm[sig])
    decreases sm[sig]
  {
    assert Solved(g, f, sm, sig);
    var i := sm[sig];
    var q := f[i].ply.q;
    var replies := g.minMoves(q);
    assert Wins(g, sig, q);
    var p, n :| g.sigP(p) == sig && q in g.maxMoves(p) && MateMin(g, q, n);
    forall k | 0 <= k < |replies| ensures Answers(g, f, sm, i, f[i].children[k], replies[k]) && Mates(g, f, sm, sm[g.sigP(replies[k])]) {
      assert Answers(g, f, sm, i, f[i].children[k], replies[k]);
      StoredSolutionMates(g, f, sm, g.sigP(replies[k]));
    }
  }

  /** The fields of a OneRound that outlive expand: maxStepState_, minStepStates_ and
      minStepSolutionTrees_. */
  datatype Round<P, Q> = Round(best: Option<Q>, replies: seq<P>, trees: seq<nat>)

  /** What expand leaves after a mate: a winning move, all replies to it, and the solution
      stored for each. */
  ghost predicate Complete<P(!new), Q(!new)>(g: Game<P, Q>, sm: map<nat, nat>, p: P, n: int, r: Round<P, Q>) {
    r.best.Some? && r.best.value in g.maxMoves(p) && CompleteMin(g, sm, r.best.value, n, r)
  }

  ghost predicate CompleteMin<P(!new), Q(!new)>(g: Game<P, Q>, sm: map<nat, nat>, q: Q, n: int, r: Round<P, Q>) {
    r.best == Some(q) && MateMin(g, q, n) && r.replies == g.minMoves(q) && TreesOk(g, sm, r)
  }

  ghost predicate TreesOk<P(!new), Q(!new)>(g: Game<P, Q>, sm: map<nat, nat>, r: Round<P, Q>) {
    |r.trees| == |r.replies| && forall k | 0 <= k < |r.trees| :: g.sigP(r.replies[k]) in sm && r.trees[k] == sm[g.sigP(r.replies[k])]
  }

  /** The forest after k replies of r were stored under node parent. */
  ghost function Stored<P(!new), Q(!new)>(f: seq<Node<P, Q>>, parent: nat, r: Round<P, Q>, k: nat): (f': seq<Node<P, Q>>)
    requires r.best.Some? && parent <= |f| && k <= |r.replies|
    ensures |f'| == |f| + 1 + k
    decreases k
  {
    if k == 0 then f + [Node(MaxMove(r.best.value), [])]
    else
      var f1 := Stored(f, parent, r, k - 1);
      WithChild(f1, parent) + [Node(MinMove(r.replies[k - 1]), if k <= |r.trees| then [r.trees[k - 1]] else [])]
  }

  /** The node gets the next node to be added as a child. */
  ghost function WithChild<P(!new), Q(!new)>(f: seq<Node<P, Q>>, parent: nat): seq<Node<P, Q>> {
    if parent < |f| then f[parent := f[parent].(children := f[parent].children + [|f|])] else f
  }

  lemma {:induction false} StoredGrows<P(!new), Q(!new)>(f: seq<Node<P, Q>>, parent: nat, r: Round<P, Q>, k: nat)
    requires r.best.Some? && parent <= |f| && k <= |r.replies|
    requires parent < |f| ==> f[parent].ply.MaxMove?
    ensures |Stored(f, parent, r, k)| == |f| + 1 + k && Grows(f, Stored(f, parent, r, k))
    ensures Stored(f, parent, r, k)[parent].ply.MaxMove?
    decreases k
  {
    if k > 0 {
      StoredGrows(f, parent, r, k - 1);
    }
  }

  /** Under a new node the replies are in order, each with its subtree. */
  lemma {:induction false} StoredChildren<P(!new), Q(!new)>(f: seq<Node<P, Q>>, r: Round<P, Q>, k: nat)
    requires r.best.Some? && k <= |r.replies| == |r.trees|
    ensures var f' := Stored(f, |f|, r, k);
            && |f'| == |f| + 1 + k && f'[|f|].ply == MaxMove(r.best.value) && |f'[|f|].children| == k
            && forall j | 0 <= j < k :: f'[|f|].children[j] == |f| + 1 + j && f'[|f| + 1 + j] == Node(MinMove(r.replies[j]), [r.trees[j]])
    decreases k
  {
    if k > 0 {
      StoredChildren(f, r, k - 1);
    }
  }

  lemma NewIsSolved<P(!new), Q(!new)>(g: Game<P, Q>, f: seq<Node<P, Q>>, sm: map<nat, nat>, p: P, n: int, r: Round<P, Q>)
    requires g.sigP(p) !in sm && Complete(g, sm, p, n, r) && forall k | 0 <= k < |r.trees| :: r.trees[k] < |f|
    ensures Solved(g, Stored(f, |f|, r, |r.replies|), sm[g.sigP(p) := |f|], g.sigP(p))
  {
    var f', sm' := Stored(f, |f|, r, |r.replies|), sm[g.sigP(p) := |f|];
    StoredChildren(f, r, |r.replies|);
    assert Wins(g, g.sigP(p), r.best.value);
    forall k | 0 <= k < |r.replies| ensures Answers(g, f', sm', |f|, f'[|f|].children[k], r.replies[k]) {
    }
  }

  lemma StoredIsWhole<P(!new), Q(!new)>(
      g: Game<P, Q>, f: seq<Node<P, Q>>, sm: map<nat, nat>, p: P, n: int, r: Round<P, Q>, parent: nat)
    requires Whole(g, f, sm) && Complete(g, sm, p, n, r) && parent == if g.sigP(p) in sm then sm[g.sigP(p)] else |f|
    requires parent <= |f|
    ensures Whole(g, Stored(f, parent, r, |r.replies|), sm[g.sigP(p) := parent])
  {
    var f', sm' := Stored(f, parent, r, |r.replies|), sm[g.sigP(p) := parent];
    assert g.sigP(p) in sm ==> Solved(g, f, sm, g.sigP(p));
    StoredGrows(f, parent, r, |r.replies|);
    forall sig | sig in sm' ensures Solved(g, f', sm', sig) {
      if sig in sm {
        SolvedKept(g, f, sm, f', sm', sig);
      } else {
        forall k | 0 <= k < |r.trees| ensures r.trees[k] < |f| {
          assert Solved(g, f, sm, g.sigP(r.replies[k]));
        }
        NewIsSolved(g, f, sm, p, n, r);
      }
    }
  }

  // ------------------------------------------------------------------------- the search

  class Search<P(!new), Q(!new)> {
    const g: Game<P, Q>
    const minStoreLevel: int
    var maxSignatures: Signatures
    var minSignatures: Signatures
    var solutionMap: map<nat, nat>
    var forest: seq<Node<P, Q>>
    ghost var discarded: set<(P, Q, P, Q)>      // moves discarded as circular, with their past

    /** The upper bounds are mates; the lower bounds are not, unless a move was discarded. */
    ghost predicate MaxCacheOk(d: Domain<P, Q>)
      reads this
    {
      forall q: Q | InQ(d, q) ::
        && (Hi(maxSignatures, g.sigQ(q)) < INT_MAX ==> MateMin(g, q, Hi(maxSignatures, g.sigQ(q))))
        && (discarded == {} ==> !MateMin(g, q, Lo(maxSignatures, g.sigQ(q))))
    }

    ghost predicate MinCacheOk(d: Domain<P, Q>)
      reads this
    {
      forall p: P | InP(d, p) ::
        && (Hi(minSignatures, g.sigP(p)) < INT_MAX ==> MateMax(g, p, Hi(minSignatures, g.sigP(p)) - 1))
        && (discarded == {} ==> !MateMax(g, p, Lo(minSignatures, g.sigP(p)) - 1))
    }

    /** What keeps the search from failing: a cached mate of the other side's positions has a
        stored solution, and solutions are in the forest. */
    ghost predicate Safe()
      reads this
    {
      (forall sig | Hi(minSignatures, sig) < INT_MAX :: sig in solutionMap) && ForestOk()
    }

    ghost predicate ForestOk()
      reads this
    {
      forall sig | sig in solutionMap :: solutionMap[sig] < |forest|
    }

    /** The stored solutions are whole. */
    ghost predicate AllSolved()
      reads this
    {
      forall f | f == forest :: Whole(g, f, solutionMap)
    }

    /** What makes its answers right; the parts are looked up only where Right is mentioned. */
    ghost predicate Ok(d: Domain<P, Q>)
      reads this
    {
      forall x: Domain<P, Q> | x == d :: Right(x)
    }

    ghost predicate Right(d: Domain<P, Q>)
      reads this
    {
      Closed(g, d) && HashOk(g, d) && MaxCacheOk(d) && MinCacheOk(d) && AllSolved()
    }

    /** Every move leads into the domain or is one whose failure is cached. */
    ghost predicate Enterable(d: Domain<P, Q>, p: P, n: int)
      reads this
    {
      forall q | q in g.maxMoves(p) :: d.inQ(q, n) || Lo(maxSignatures, g.sigQ(q)) >= n
    }

    constructor (game: Game<P, Q>, level: int)
      ensures g == game && minStoreLevel == level && Safe() && discarded == {}
      ensures maxSignatures == map[] && minSignatures == map[] && solutionMap == map[] && forest == []
    {
      g, minStoreLevel := game, level;
      maxSignatures, minSignatures, solutionMap, forest, discarded := map[], map[], map[], [], {};
    }

    /** Empty caches are right about every domain that the signatures suit. */
    lemma FreshIsOk(d: Domain<P, Q>)
      requires Closed(g, d) && HashOk(g, d)
      requires maxSignatures == map[] && minSignatures == map[] && solutionMap == map[] && forest == []
      ensures Ok(d)
    {
      assert Right(d);
    }

    /** addSolutionNode with a key: the first node stored for a key stays. */
    method AddSolutionNode(key: nat, q: Q) returns (idx: nat)
      modifies this`solutionMap, this`forest
      ensures forest == old(forest) + [Node(MaxMove(q), [])]
      ensures solutionMap == old(solutionMap)[key := idx]
      ensures idx == if key in old(solutionMap) then old(solutionMap)[key] else |old(forest)|
    {
      forest := forest + [Node(MaxMove(q), [])];
      if key !in solutionMap {
        solutionMap := solutionMap[key := |forest| - 1];
      }
      idx := solutionMap[key];
    }

    method AddChild(parent: nat, child: nat)
      requires parent < |forest|
      modifies this`forest
      ensures forest == old(forest)[parent := old(forest)[parent].(children := old(forest)[parent].children + [child])]
    {
      forest := forest[parent := forest[parent].(children := forest[parent].children + [child])];
    }

    /** storeSolution: the replies become new children of the key's node, each with its own
        subtree; a key stored before keeps its move and first children. */
    method StoreSolution(key: nat, r: Round<P, Q>) returns (parent: nat)
      requires r.best.Some? && (key in solutionMap ==> solutionMap[key] < |forest|)
      modifies this`solutionMap, this`forest
      ensures solutionMap == old(solutionMap)[key := parent]
      ensures parent == if key in old(solutionMap) then old(solutionMap)[key] else |old(forest)|
      ensures forest == Stored(old(forest), parent, r, |r.replies|)
    {
      parent := AddSolutionNode(key, r.best.value);
      assert forest == Stored(old(forest), parent, r, 0);
      for i := 0 to |r.replies|
        invariant forest == Stored(old(forest), parent, r, i) && solutionMap == old(solutionMap)[key := parent]
      {
        ghost var f := forest;
        forest := forest + [Node(MinMove(r.replies[i]), [])];
        var idx := |forest| - 1;
        AddChild(parent, idx);
        if i < |r.trees| {
          AddChild(idx, r.trees[i]);
        }
        ghost var sub := if i < |r.trees| then [r.trees[i]] else [];
        assert i < |r.trees| ==> [] + [r.trees[i]] == sub;
        assert forest == WithChild(f, parent) + [Node(MinMove(r.replies[i]), sub)];
      }
    }

    /** A solution found for p keeps all stored solutions whole and adds one for p. */
    method StoreWhole(p: P, n: int, r: Round<P, Q>) returns (parent: nat)
      requires ForestOk() && r.best.Some?
      modifies this`solutionMap, this`forest
      ensures ForestOk() && Keeps(old(solutionMap), solutionMap)
      ensures g.sigP(p) in solutionMap && parent == solutionMap[g.sigP(p)]
      ensures old(AllSolved() && Complete(g, solutionMap, p, n, r)) ==> AllSolved()
    {
      ghost var key, f, sm := g.sigP(p), forest, solutionMap;
      ghost var whole := AllSolved() && Complete(g, sm, p, n, r);
      assert AllSolved() ==> Whole(g, f, sm);
      parent := StoreSolution(g.sigP(p), r);
      if whole {
        StoredIsWhole(g, f, sm, p, n, r, parent);
        assert Whole(g, forest, solutionMap);
      }
    }

    /** updateMinCache after a missed lookup. */
    method UpdateMin(p: P, n: int, score: int, ghost d: Domain<P, Q>)
      requires 0 < n < INT_MAX && Lo(minSignatures, g.sigP(p)) < n && score <= CHECKMATE
      modifies this`minSignatures
      ensures Newer(old(minSignatures), minSignatures, n)
      ensures forall sig | Hi(minSignatures, sig) < INT_MAX ::
                Hi(old(minSignatures), sig) < INT_MAX || (sig == g.sigP(p) && score == CHECKMATE)
      ensures HashOk(g, d) && old(MinCacheOk(d)) && InP(d, p)
              && (score == CHECKMATE ==> MateMax(g, p, n - 1)) && (score < CHECKMATE && discarded == {} ==> !MateMax(g, p, n - 1))
              ==> MinCacheOk(d)
    {
      UpdateAfterMiss(minSignatures, g.sigP(p), n, score, minStoreLevel);
      minSignatures := Update(minSignatures, g.sigP(p), n, score, minStoreLevel);
    }

    method UpdateMax(q: Q, n: int, score: int, ghost d: Domain<P, Q>)
      requires 0 < n < INT_MAX && Lo(maxSignatures, g.sigQ(q)) < n && score <= CHECKMATE
      modifies this`maxSignatures
      ensures Newer(old(maxSignatures), maxSignatures, n)
      ensures minStoreLevel <= n ==> Settled(maxSignatures, g.sigQ(q), n)
      ensures HashOk(g, d) && old(MaxCacheOk(d)) && InQ(d, q)
              && (score == CHECKMATE ==> MateMin(g, q, n)) && (score < CHECKMATE && discarded == {} ==> !MateMin(g, q, n))
              ==> MaxCacheOk(d)
    {
      UpdateAfterMiss(maxSignatures, g.sigQ(q), n, score, minStoreLevel);
      maxSignatures := Update(maxSignatures, g.sigQ(q), n, score, minStoreLevel);
    }

    /** What a lookup in either cache tells. */
    lemma LookupMin(d: Domain<P, Q>, p: P, n: int)
      requires MinCacheOk(d) && InP(d, p) && 0 < n < INT_MAX
      ensures Lookup(minSignatures, g.sigP(p), n) == Some(NONE) && discarded == {} ==> !MateMax(g, p, n - 1)
      ensures Lookup(minSignatures, g.sigP(p), n) == Some(CHECKMATE) ==> MateMax(g, p, n - 1)
    {
      var c, sig := minSignatures, g.sigP(p);
      if Lookup(c, sig, n) == Some(CHECKMATE) {
        MateMaxMonotone(g, p, c[sig].hi - 1, n - 1);
      }
      if Lookup(c, sig, n) == Some(NONE) && MateMax(g, p, n - 1) {
        MateMaxMonotone(g, p, n - 1, c[sig].lo - 1);
      }
    }

    lemma LookupMax(d: Domain<P, Q>, q: Q, n: int)
      requires MaxCacheOk(d) && InQ(d, q) && 0 < n < INT_MAX
      ensures Lookup(maxSignatures, g.sigQ(q), n) == Some(NONE) && discarded == {} ==> !MateMin(g, q, n)
      ensures Lookup(maxSignatures, g.sigQ(q), n) == Some(CHECKMATE) ==> MateMin(g, q, n)
    {
      if Lookup(maxSignatures, g.sigQ(q), n) == Some(CHECKMATE) {
        MateMinMonotone(g, q, maxSignatures[g.sigQ(q)].hi, n);
      }
      if Lookup(maxSignatures, g.sigQ(q), n) == Some(NONE) && MateMin(g, q, n) {
        MateMinMonotone(g, q, n, maxSignatures[g.sigQ(q)].lo);
      }
    }

    /** The position came about by the parent's move and a reply. */
    ghost predicate Descends(parent: Option<(P, Q)>, p: P) {
      parent.Some? ==> parent.value.1 in g.maxMoves(parent.value.0) && p in g.minMoves(parent.value.1)
    }

    /** expand.  Where the caches are right: CHECKMATE means a forced mate within n moves, with
        all replies and their stored solutions, and a forced mate is found unless a move was
        discarded as circular.  Moves whose failure is cached need not be in the domain.  Every
        move of a root that failed is settled in the cache. */
    method Expand(p: P, parent: Option<(P, Q)>, n: int, ghost d: Domain<P, Q>) returns (score: int, r: Round<P, Q>)
      requires Safe() && 0 < n < INT_MAX && Descends(parent, p)
      modifies this
      ensures Safe() && score <= CHECKMATE && (score == CHECKMATE ==> r.best.Some?)
      ensures g.maxMoves(p) == [] ==> score == if g.maxChecked(p) then -CHECKMATE else -STALLMATE
      ensures g.maxMoves(p) != [] ==> score == CHECKMATE || score == NONE
      ensures old(Ok(d) && Enterable(d, p, n)) ==> Ok(d)
      ensures old(Ok(d) && Enterable(d, p, n)) && score == CHECKMATE ==>
                Complete(g, solutionMap, p, n, r) && d.inQ(r.best.value, n)
      ensures old(Ok(d)) && d.inP(p, n) && discarded == {} ==> (MateMax(g, p, n) ==> score == CHECKMATE)
      ensures OnlyDiscards(g, old(discarded), discarded, parent, p, n)
      ensures Keeps(old(solutionMap), solutionMap)
      ensures Newer(old(maxSignatures), maxSignatures, n) && Newer(old(minSignatures), minSignatures, n)
      ensures parent == None && minStoreLevel <= n && score < CHECKMATE ==>
                forall q | q in g.maxMoves(p) :: Settled(maxSignatures, g.sigQ(q), n)
      decreases n, 3
    {
      r := Round(None, [], []);
      var moves := g.maxMoves(p);
      if |moves| == 0 {
        score := if g.maxChecked(p) then -CHECKMATE else -STALLMATE;
      } else {
        score, r := ExpandMaxStep(p, parent, n, moves, d);
      }
    }

    method ExpandMaxStep(p: P, parent: Option<(P, Q)>, n: int, moves: seq<Q>, ghost d: Domain<P, Q>) returns (score: int, r: Round<P, Q>)
      requires Safe() && 0 < n < INT_MAX && moves == g.maxMoves(p) && Descends(parent, p)
      modifies this
      ensures Safe() && (score == CHECKMATE || score == NONE) && (score == CHECKMATE ==> r.best.Some?)
      ensures old(Ok(d) && Enterable(d, p, n)) ==> Ok(d)
      ensures old(Ok(d) && Enterable(d, p, n)) && score == CHECKMATE ==>
                Complete(g, solutionMap, p, n, r) && d.inQ(r.best.value, n)
      ensures old(Ok(d)) && d.inP(p, n) && discarded == {} ==> (MateMax(g, p, n) ==> score == CHECKMATE)
      ensures OnlyDiscards(g, old(discarded), discarded, parent, p, n)
      ensures Keeps(old(solutionMap), solutionMap)
      ensures Newer(old(maxSignatures), maxSignatures, n) && Newer(old(minSignatures), minSignatures, n)
      ensures parent == None && minStoreLevel <= n && score < CHECKMATE ==>
                forall q | q in g.maxMoves(p) :: Settled(maxSignatures, g.sigQ(q), n)
      decreases n, 2
    {
      ghost var enterable, inside, root := Ok(d) && Enterable(d, p, n), Ok(d) && d.inP(p, n), parent == None && minStoreLevel <= n;
      r := Round(None, [], []);
      for i := 0 to |moves|
        invariant Safe() && OnlyDiscards(g, old(discarded), discarded, parent, p, n) && Keeps(old(solutionMap), solutionMap)
        invariant Newer(old(maxSignatures), maxSignatures, n) && Newer(old(minSignatures), minSignatures, n)
        invariant enterable || inside ==> Ok(d)
        invariant inside && discarded == {} ==> forall k | 0 <= k < i :: !MateMin(g, moves[k], n)
        invariant root ==> forall k | 0 <= k < i :: Settled(maxSignatures, g.sigQ(moves[k]), n)
      {
        var q := moves[i];
        assert q in moves;
        ghost var before, maxs, mins := discarded, maxSignatures, minSignatures;
        assert inside ==> Right(d) && d.inQ(q, n);
        NewerSettled(old(maxSignatures), maxs, n, g.sigQ(q));
        score, r := NextMaxMove(p, parent, q, n, d);
        DiscardsMore(g, old(discarded), before, discarded, parent, p, n);
        forall k | root && 0 <= k < i ensures Settled(maxSignatures, g.sigQ(moves[k]), n) {
          NewerSettled(maxs, maxSignatures, n, g.sigQ(moves[k]));
        }
        NewerMore(old(maxSignatures), maxs, maxSignatures, n, n, n);
        NewerMore(old(minSignatures), mins, minSignatures, n, n, n);
        if score == CHECKMATE {
          return;
        }
      }
      score := NONE;
    }

    ghost method NoteDiscarded(x: (P, Q, P, Q), parent: Option<(P, Q)>, p: P, n: int, d: Domain<P, Q>)
      requires TakesBack(g, x) && parent == Some((x.0, x.1)) && x.2 == p
      modifies this`discarded
      ensures discarded == old(discarded) + {x} && OnlyDiscards(g, old(discarded), discarded, parent, p, n)
      ensures old(Ok(d)) ==> Ok(d)
    {
      ghost var ok := Ok(d);
      assert ok ==> Right(d);
      discarded := discarded + {x};
      assert ok ==> Right(d);
    }

    /** One turn of the loop: a move that takes the last one back is discarded. */
    method NextMaxMove(p: P, parent: Option<(P, Q)>, q: Q, n: int, ghost d: Domain<P, Q>) returns (score: int, r: Round<P, Q>)
      requires Safe() && 0 < n < INT_MAX && q in g.maxMoves(p) && Descends(parent, p)
      modifies this
      ensures Safe() && score <= CHECKMATE && (score == CHECKMATE ==> r.best.Some?)
      ensures old(Ok(d) && (d.inQ(q, n) || Lo(maxSignatures, g.sigQ(q)) >= n)) ==> Ok(d)
      ensures old(Ok(d) && (d.inQ(q, n) || Lo(maxSignatures, g.sigQ(q)) >= n)) && score == CHECKMATE ==>
                CompleteMin(g, solutionMap, q, n, r) && d.inQ(q, n)
      ensures old(Ok(d)) && d.inQ(q, n) && discarded == {} ==> (MateMin(g, q, n) ==> score == CHECKMATE)
      ensures OnlyDiscards(g, old(discarded), discarded, parent, p, n)
      ensures Keeps(old(solutionMap), solutionMap)
      ensures Newer(old(maxSignatures), maxSignatures, n) && Newer(old(minSignatures), minSignatures, n)
      ensures parent == None && minStoreLevel <= n ==> Settled(maxSignatures, g.sigQ(q), n)
      decreases n, 1, 1
    {
      if parent.Some? && g.circular(parent.value.0, parent.value.1, p, q) {
        NoteDiscarded((parent.value.0, parent.value.1, p, q), parent, p, n, d);
        NewerSelf(maxSignatures, n);
        score, r := NONE, Round(None, [], []);
      } else {
        score, r := TryMaxMove(p, q, n, d);
        DiscardsToo(g, old(discarded), discarded, parent, p, n);
      }
    }

    /** One move of the first side: cache, or the replies; a cached mate is expanded again for
        its solution. */
    method TryMaxMove(p: P, q: Q, n: int, ghost d: Domain<P, Q>) returns (score: int, r: Round<P, Q>)
      requires Safe() && 0 < n < INT_MAX && q in g.maxMoves(p)
      modifies this
      ensures Safe() && score <= CHECKMATE && (score == CHECKMATE ==> r.best.Some?)
      ensures old(Ok(d) && (d.inQ(q, n) || Lo(maxSignatures, g.sigQ(q)) >= n)) ==> Ok(d)
      ensures old(Ok(d) && (d.inQ(q, n) || Lo(maxSignatures, g.sigQ(q)) >= n)) && score == CHECKMATE ==>
                CompleteMin(g, solutionMap, q, n, r) && d.inQ(q, n)
      ensures old(Ok(d)) && d.inQ(q, n) && discarded == {} ==> (MateMin(g, q, n) ==> score == CHECKMATE)
      ensures OnlyDiscards(g, old(discarded), discarded, None, p, n)
      ensures Keeps(old(solutionMap), solutionMap)
      ensures Newer(old(maxSignatures), maxSignatures, n) && Newer(old(minSignatures), minSignatures, n)
      ensures minStoreLevel <= n ==> Settled(maxSignatures, g.sigQ(q), n)
      decreases n, 1, 0
    {
      ghost var inside := Ok(d) && d.inQ(q, n);
      var sig := g.sigQ(q);
      var found := Lookup(maxSignatures, sig, n);
      if inside {
        assert Right(d) && InQ(d, q);
        LookupMax(d, q, n);
      }
      r := Round(Some(q), [], []);
      if found == None {
        score, r := ExpandMinStep(p, q, n, d);
        assert inside ==> Right(d);
        ghost var maxs := maxSignatures;
        assert NewerIs(old(maxSignatures), maxs, n - 1);
        UpdateMax(q, n, score, d);
        NewerMore(old(maxSignatures), maxs, maxSignatures, n - 1, n, n);
        assert inside ==> Right(d);
      } else if found == Some(CHECKMATE) {
        score, r := ExpandMinStep(p, q, n, d);
        assert NewerIs(old(maxSignatures), maxSignatures, n - 1);
        NewerSelf(maxSignatures, n);
        NewerMore(old(maxSignatures), maxSignatures, maxSignatures, n - 1, n, n);
      } else {
        score := NONE;
      }
    }

    method ExpandMinStep(p: P, q: Q, n: int, ghost d: Domain<P, Q>) returns (score: int, r: Round<P, Q>)
      requires Safe() && 0 < n < INT_MAX && q in g.maxMoves(p)
      modifies this
      ensures Safe() && score <= CHECKMATE && r.best == Some(q)
      ensures g.minMoves(q) == [] ==> score == if g.minChecked(q) then CHECKMATE else STALLMATE
      ensures old(Ok(d)) && d.inQ(q, n) ==> Ok(d) && (score == CHECKMATE ==> CompleteMin(g, solutionMap, q, n, r))
      ensures old(Ok(d)) && d.inQ(q, n) && discarded == {} ==> (MateMin(g, q, n) ==> score == CHECKMATE)
      ensures OnlyDiscards(g, old(discarded), discarded, None, p, n)
      ensures Keeps(old(solutionMap), solutionMap)
      ensures Newer(old(maxSignatures), maxSignatures, n - 1) && Newer(old(minSignatures), minSignatures, n)
      decreases n, 0
    {
      ghost var inside := Ok(d) && d.inQ(q, n);
      r := Round(Some(q), [], []);
      var checked, replies := g.minChecked(q), g.minMoves(q);
      for i := 0 to |replies|
        invariant Safe() && OnlyDiscards(g, old(discarded), discarded, None, p, n) && Keeps(old(solutionMap), solutionMap)
        invariant r.best == Some(q) && r.replies == replies[..i] && TreesOk(g, solutionMap, r)
        invariant Newer(old(maxSignatures), maxSignatures, n - 1) && Newer(old(minSignatures), minSignatures, n)
        invariant i > 0 ==> n > 1
        invariant inside ==> Ok(d) && forall k | 0 <= k < i :: MateMax(g, replies[k], n - 1)
      {
        assert replies[i] in replies;
        assert inside && n > 1 ==> Right(d) && d.inP(replies[i], n - 1);
        ghost var before, maxs, mins := discarded, maxSignatures, minSignatures;
        score, r := HandleMinStep(p, q, replies[i], n, r, d);
        DiscardsMore(g, old(discarded), before, discarded, None, p, n);
        NewerMore(old(maxSignatures), maxs, maxSignatures, n - 1, n - 1, n - 1);
        NewerMore(old(minSignatures), mins, minSignatures, n, n, n);
        if score < CHECKMATE {
          return;
        }
      }
      score := if checked || |replies| > 0 then CHECKMATE else STALLMATE;
    }

    /** handleMinStepBoard: appends the reply and, after a mate, its solution to r.  The lookup
        of a cached mate's solution never fails. */
    method HandleMinStep(p: P, q: Q, next: P, n: int, r0: Round<P, Q>, ghost d: Domain<P, Q>) returns (score: int, r: Round<P, Q>)
      requires Safe() && 0 < n < INT_MAX && TreesOk(g, solutionMap, r0) && q in g.maxMoves(p) && next in g.minMoves(q)
      modifies this
      ensures Safe() && score <= CHECKMATE && (score == CHECKMATE ==> n > 1)
      ensures r.best == r0.best && r.replies == r0.replies + [next] && (score == CHECKMATE ==> TreesOk(g, solutionMap, r))
      ensures old(Ok(d)) && (n > 1 ==> d.inP(next, n - 1)) ==> Ok(d) && (score == CHECKMATE ==> MateMax(g, next, n - 1))
      ensures old(Ok(d)) && n > 1 && d.inP(next, n - 1) && discarded == {} ==> (MateMax(g, next, n - 1) ==> score == CHECKMATE)
      ensures OnlyDiscards(g, old(discarded), discarded, None, p, n)
      ensures Keeps(old(solutionMap), solutionMap)
      ensures Newer(old(maxSignatures), maxSignatures, n - 1) && Newer(old(minSignatures), minSignatures, n)
      decreases n - 1, 5
    {
      score, r := NONE, r0;
      if n > 1 {
        var sig, tree := g.sigP(next), None;
        var found := Lookup(minSignatures, sig, n);
        if Ok(d) && d.inP(next, n - 1) {
          assert Right(d) && InP(d, next);
          LookupMin(d, next, n);
        }
        if found == None {
          score, tree := ExpandNext(p, q, next, n, d);
        } else if found == Some(CHECKMATE) {
          score, tree := CHECKMATE, Some(solutionMap[sig]);
        }
        if tree.Some? {
          r := r.(trees := r.trees + [tree.value]);
        }
      }
      r := r.(replies := r.replies + [next]);
    }

    /** The same after a missed lookup: expand, update, store. */
    method ExpandNext(p: P, q: Q, next: P, n: int, ghost d: Domain<P, Q>) returns (score: int, tree: Option<nat>)
      requires Safe() && 1 < n < INT_MAX && Lo(minSignatures, g.sigP(next)) < n && q in g.maxMoves(p) && next in g.minMoves(q)
      modifies this
      ensures Safe() && score <= CHECKMATE
      ensures score == CHECKMATE <==> tree.Some?
      ensures tree.Some? ==> g.sigP(next) in solutionMap && tree.value == solutionMap[g.sigP(next)]
      ensures old(Ok(d)) && d.inP(next, n - 1) ==> Ok(d) && (score == CHECKMATE ==> MateMax(g, next, n - 1))
      ensures old(Ok(d)) && d.inP(next, n - 1) && discarded == {} ==> (MateMax(g, next, n - 1) ==> score == CHECKMATE)
      ensures OnlyDiscards(g, old(discarded), discarded, None, p, n)
      ensures Keeps(old(solutionMap), solutionMap)
      ensures Newer(old(maxSignatures), maxSignatures, n - 1) && Newer(old(minSignatures), minSignatures, n)
      decreases n - 1, 4
    {
      ghost var inside := Ok(d) && d.inP(next, n - 1);
      if inside {
        assert Right(d);
        InsideIsEnterable(d, next, n - 1);
      }
      var r: Round<P, Q>;
      tree := None;
      score, r := Expand(next, Some((p, q)), n - 1, d);
      DiscardsBelow(g, old(discarded), discarded, p, q, next, n);
      assert inside ==> Right(d);
      ghost var mins := minSignatures;
      assert NewerIs(old(minSignatures), mins, n - 1);
      if n >= minStoreLevel {
        UpdateMin(next, n, score, d);
        assert inside ==> Right(d);
      } else {
        NewerSelf(mins, n);
      }
      NewerMore(old(minSignatures), mins, minSignatures, n - 1, n, n);
      if score == CHECKMATE {
        var solution := StoreWhole(next, n - 1, r);
        tree := Some(solution);
        assert inside ==> Right(d);
      }
    }

    lemma InsideIsEnterable(d: Domain<P, Q>, p: P, n: int)
      requires Closed(g, d) && d.inP(p, n)
      ensures Enterable(d, p, n)
    {
    }
  }
}
