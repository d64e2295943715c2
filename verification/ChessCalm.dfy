/**
 * When the squares of a board say enough: Board::hash ignores the last move, so the caches
 * mix up positions that differ in whether a pawn may be taken en passant.  On roots from which
 * no such capture can ever arise the search is right.
 */
module ChessCalm {
  import opened Common
  import opened ChessModel
  import opened ChessBoard
  import opened ChessMoves
  import opened ChessLegality
  import opened ChessGame
  import Search = ChessSearch

  type Chess = Search.Game<Standing, Standing>

  type Region = Search.Domain<Standing, Standing>

  // ------------------------------------------------------------------- signatures

  /** Board::hash without collisions: a function of the squares that tells them apart. */
  ghost predicate SquaresOnly(g: Chess) {
    && (forall p, p' :: g.sigP(p) == g.sigP(p') <==> p.b.grid == p'.b.grid)
    && (forall q, q' :: g.sigQ(q) == g.sigQ(q') <==> q.b.grid == q'.b.grid)
  }

  /** The last moves allow colour c's pawns the same captures en passant. */
  ghost predicate SameRights(p: Standing, p': Standing, c: Color) {
    forall src, to | Valid(src) && At(p.b, src) == Man(c, Pawn) :: PassedBy(p.lm, c, src, to) <==> PassedBy(p'.lm, c, src, to)
  }

  lemma SameLegal(p: Standing, p': Standing, c: Color, m: Move)
    requires p.b == p'.b && SameRights(p, p', c)
    ensures IsLegal(p, c, m) <==> IsLegal(p', c, m)
  {
  }

  lemma SameFollows(p: Standing, p': Standing, c: Color, q: Standing)
    requires p.b == p'.b && SameRights(p, p', c)
    ensures Follows(p, c, q) <==> Follows(p', c, q)
  {
    forall m ensures IsLegal(p, c, m) <==> IsLegal(p', c, m) {
      SameLegal(p, p', c, m);
    }
  }

  lemma {:induction false} SameMax(g: Chess, first: Color, p: Standing, p': Standing, n: int)
    requires IsChess(g, first) && p.b == p'.b && SameRights(p, p', first)
    ensures Search.MateMax(g, p, n) <==> Search.MateMax(g, p', n)
  {
    forall q ensures q in g.maxMoves(p) <==> q in g.maxMoves(p') {
      SameFollows(p, p', first, q);
    }
  }

  lemma {:induction false} SameMin(g: Chess, first: Color, q: Standing, q': Standing, n: int)
    requires IsChess(g, first) && q.b == q'.b && SameRights(q, q', Other(first))
    ensures Search.MateMin(g, q, n) <==> Search.MateMin(g, q', n)
  {
    forall p ensures p in g.minMoves(q) <==> p in g.minMoves(q') {
      SameFollows(q, q', Other(first), p);
    }
    NoReplies(g, first, q);
    NoReplies(g, first, q');
    forall m ensures IsLegal(q, Other(first), m) <==> IsLegal(q', Other(first), m) {
      SameLegal(q, q', Other(first), m);
    }
  }

  /** A signature that tells apart boards and en passant rights suits every domain. */
  lemma FullSignatureIsOk(g: Chess, first: Color, d: Region)
    requires IsChess(g, first)
    requires forall p, p' | g.sigP(p) == g.sigP(p') :: p.b == p'.b && SameRights(p, p', first)
    requires forall q, q' | g.sigQ(q) == g.sigQ(q') :: q.b == q'.b && SameRights(q, q', Other(first))
    ensures Search.HashOk(g, d)
  {
    forall p, p', n: int | g.sigP(p) == g.sigP(p') ensures Search.MateMax(g, p, n) <==> Search.MateMax(g, p', n) {
      SameMax(g, first, p, p', n);
    }
    forall q, q', n: int | g.sigQ(q) == g.sigQ(q') ensures Search.MateMin(g, q, n) <==> Search.MateMin(g, q', n) {
      SameMin(g, first, q, q', n);
    }
  }

  // ---------------------------------------------------------------- calm positions

  /** The rows a pawn of colour c has advanced. */
  function Advance(c: Color, r: int): int { (r - HomeRow(c)) * Ahead(c) }

  /** No pawn of colour c can step two rows any more. */
  ghost predicate PawnsMoved(b: Snapshot, c: Color) {
    forall p | Valid(p) && At(b, p) == Man(c, Pawn) :: Advance(c, p.r) > 0
  }

  /** No pawn of colour c can meet a pawn that steps past it any more. */
  ghost predicate PawnsSpent(b: Snapshot, c: Color) {
    forall p | Valid(p) && At(b, p) == Man(c, Pawn) :: Advance(c, p.r) > 3
  }

  predicate DoubleStep(lm: Move, c: Color) {
    lm.fromType == Man(c, Pawn) && lm.from.r == HomeRow(c) && lm.to.r == HomeRow(c) + 2 * Ahead(c)
  }

  /** Colour c cannot capture en passant, now or later. */
  ghost predicate NoPassing(p: Standing, c: Color) {
    PawnsSpent(p.b, c) || (PawnsMoved(p.b, Other(c)) && !DoubleStep(p.lm, Other(c)))
  }

  /** A position of the game with colour c to move. */
  ghost predicate Proper(p: Standing, c: Color) {
    Tracked(p.b) && HasKing(p.b, White) && HasKing(p.b, Black) && !Checked(p.b, Other(c))
  }

  ghost predicate Calm(p: Standing, c: Color) {
    Proper(p, c) && NoPassing(p, White) && NoPassing(p, Black)
  }

  lemma NoRights(p: Standing, c: Color, src: Pos, to: Pos)
    requires NoPassing(p, c) && Valid(src) && At(p.b, src) == Man(c, Pawn)
    ensures !PassedBy(p.lm, c, src, to)
  {
  }

  lemma CalmMoveIsWellFormed(p: Standing, c: Color, m: Move)
    requires NoPassing(p, c) && Generated(p, c, m)
    ensures WellFormed(p.b, m) && !m.special.EnPassant? && !m.special.Castling? && m.fromType.color == c
  {
    if m.special.EnPassant? {
      NoRights(p, c, m.from, m.to);
    }
    GeneratedIsWellFormed(p, c, m);
  }

  /** A legal move leads to a proper position. */
  lemma ProperStays(p: Standing, c: Color, m: Move)
    requires Proper(p, c) && IsLegal(p, c, m) && WellFormed(p.b, m) && m.fromType.color == c && !m.special.Castling?
    ensures Proper(Play(p, m), Other(c))
  {
    var b := Applied(p.b, m);
    AppliedTracked(p.b, m);
    KingNotTaken(p, c, m);
    assert Other(Other(c)) == c;
    AppliedAt(p.b, m, KingPos(p.b, Other(c)));
    AppliedAt(p.b, m, KingPos(p.b, c));
    AppliedAt(p.b, m, m.to);
    assert m.fromType.kind.King? ==> KingPos(p.b, c) == m.from;
    assert HasKing(b, c) && HasKing(b, Other(c));
  }

  /** Pawns only advance. */
  lemma PawnsAdvance(p: Standing, c: Color, m: Move, x: Color, q: Pos)
    requires Generated(p, c, m) && WellFormed(p.b, m) && !m.special.EnPassant? && !m.special.Castling?
    requires Valid(q) && At(Applied(p.b, m), q) == Man(x, Pawn)
    ensures (At(p.b, q) == Man(x, Pawn)) || (q == m.to && At(p.b, m.from) == Man(x, Pawn) && x == c && Advance(c, q.r) > Advance(c, m.from.r))
  {
    AppliedAt(p.b, m, q);
  }

  lemma NoPassingStays(p: Standing, c: Color, m: Move, x: Color)
    requires NoPassing(p, x) && Generated(p, c, m) && WellFormed(p.b, m) && !m.special.EnPassant? && !m.special.Castling?
    ensures NoPassing(Play(p, m), x)
  {
    var b := Applied(p.b, m);
    if PawnsSpent(p.b, x) {
      forall q | Valid(q) && At(b, q) == Man(x, Pawn) ensures Advance(x, q.r) > 3 {
        PawnsAdvance(p, c, m, x, q);
      }
    } else {
      forall q | Valid(q) && At(b, q) == Man(Other(x), Pawn) ensures Advance(Other(x), q.r) > 0 {
        PawnsAdvance(p, c, m, Other(x), q);
      }
    }
  }

  /** Legal moves keep a position calm. */
  lemma CalmStays(p: Standing, c: Color, m: Move)
    requires Calm(p, c) && IsLegal(p, c, m)
    ensures Calm(Play(p, m), Other(c))
  {
    CalmMoveIsWellFormed(p, c, m);
    ProperStays(p, c, m);
    NoPassingStays(p, c, m, White);
    NoPassingStays(p, c, m, Black);
  }

  /** The squares of a proper position tell where its kings are. */
  lemma GridTells(p: Standing, p': Standing, c: Color, c': Color)
    requires Proper(p, c) && Proper(p', c') && p.b.grid == p'.b.grid
    ensures p.b == p'.b
  {
    assert At(p.b, KingPos(p.b, White)) == At(p'.b, KingPos(p.b, White));
    assert At(p.b, KingPos(p.b, Black)) == At(p'.b, KingPos(p.b, Black));
  }

  lemma CalmRights(p: Standing, p': Standing, c: Color)
    requires NoPassing(p, c) && NoPassing(p', c) && p.b == p'.b
    ensures SameRights(p, p', c)
  {
    forall src, to | Valid(src) && At(p.b, src) == Man(c, Pawn) ensures PassedBy(p.lm, c, src, to) <==> PassedBy(p'.lm, c, src, to) {
      NoRights(p, c, src, to);
      NoRights(p', c, src, to);
    }
  }

  ghost function CalmRegion(first: Color): Region {
    Search.Domain((p, n) => Calm(p, first), (q, n) => Calm(q, Other(first)))
  }

  /** The squares alone suit the calm positions. */
  lemma CalmSuits(g: Chess, first: Color)
    requires IsChess(g, first) && SquaresOnly(g)
    ensures Search.Closed(g, CalmRegion(first)) && Search.HashOk(g, CalmRegion(first))
  {
    var d := CalmRegion(first);
    forall p, c, q | Calm(p, c) && Follows(p, c, q) ensures Calm(q, Other(c)) {
      var m :| IsLegal(p, c, m) && q == Play(p, m);
      CalmStays(p, c, m);
    }
    assert Other(Other(first)) == first;
    forall p, p', n: int | Search.InP(d, p) && Search.InP(d, p') && g.sigP(p) == g.sigP(p')
      ensures Search.MateMax(g, p, n) <==> Search.MateMax(g, p', n)
    {
      GridTells(p, p', first, first);
      CalmRights(p, p', first);
      SameMax(g, first, p, p', n);
    }
    forall q, q', n: int | Search.InQ(d, q) && Search.InQ(d, q') && g.sigQ(q) == g.sigQ(q')
      ensures Search.MateMin(g, q, n) <==> Search.MateMin(g, q', n)
    {
      GridTells(q, q', Other(first), Other(first));
      CalmRights(q, q', Other(first));
      SameMin(g, first, q, q', n);
    }
  }

  /** A new search is right about calm positions. */
  lemma NewSearchIsOk(search: Search.Search<Standing, Standing>, first: Color)
    requires IsChess(search.g, first) && SquaresOnly(search.g)
    requires search.maxSignatures == map[] && search.minSignatures == map[] && search.solutionMap == map[] && search.forest == []
    ensures search.Ok(CalmRegion(first))
  {
    CalmSuits(search.g, first);
    search.FreshIsOk(CalmRegion(first));
  }

  /** expand on a calm position, with the signatures of the code: CHECKMATE is a forced mate of
      chess, and none within n moves is overlooked unless a move was discarded as circular, which
      only happens to one that takes the move before it back.  The caches may stay for the next
      calm root. */
  method Solve(search: Search.Search<Standing, Standing>, first: Color, p: Standing, n: int) returns (score: int, best: Option<Standing>)
    requires search.Safe() && IsChess(search.g, first) && SquaresOnly(search.g) && 0 < n < Search.INT_MAX
    requires search.Ok(CalmRegion(first)) && Calm(p, first)
    modifies search
    ensures search.Safe() && search.Ok(CalmRegion(first)) && score <= Search.CHECKMATE
    ensures score == Search.CHECKMATE ==> ForcedMate(p, first, n)
    ensures score == Search.CHECKMATE ==>
              best.Some? && exists m :: IsLegal(p, first, m) && best.value == Play(p, m) && ForcedAfter(best.value, first, n)
    ensures search.discarded == {} ==> (ForcedMate(p, first, n) ==> score == Search.CHECKMATE)
    ensures Search.OnlyDiscards(search.g, old(search.discarded), search.discarded, None, p, n)
    ensures old(search.discarded) == {} && Search.NoneTakesBack(search.g, p, n) && ForcedMate(p, first, n) ==> score == Search.CHECKMATE
  {
    ghost var d := CalmRegion(first);
    CalmSuits(search.g, first);
    search.InsideIsEnterable(d, p, n);
    var r: Search.Round<Standing, Standing>;
    score, r := search.Expand(p, None, n, d);
    best := r.best;
    MateIsForcedMate(search.g, first, p, n);
    if Search.NoneTakesBack(search.g, p, n) {
      Search.NothingDiscarded(search.g, old(search.discarded), search.discarded, p, n);
    }
    if score == Search.CHECKMATE {
      assert Follows(p, first, r.best.value);
      MateIsForcedAfter(search.g, first, r.best.value, n);
      assert Search.MateMax(search.g, p, n);
    }
  }
}
