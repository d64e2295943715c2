/**
 * Chess as a game of ChessSearch: positions, the moves the generators make and canMove
 * accepts, and what a forced mate is, move by move.
 */
module ChessGame {
  import opened Common
  import opened ChessModel
  import opened ChessBoard
  import opened ChessMoves
  import opened ChessLegality
  import Search = ChessSearch

  /** A board and the move that led to it. */
  datatype Standing = Standing(b: Snapshot, lm: Move)

  function Play(p: Standing, m: Move): Standing
    requires Playable(m)
  {
    Standing(Applied(p.b, m), m)
  }

  // ------------------------------------------------------------------- legal moves

  /** A move that the generator of the piece on m.from makes for colour c. */
  ghost predicate Generated(p: Standing, c: Color, m: Move) {
    && Valid(m.from) && At(p.b, m.from).Man? && At(p.b, m.from).color == c
    && if At(p.b, m.from).kind.Pawn? then PawnMove(p.b, p.lm, m.from, m) else AttackMove(p.b, m.from, m)
  }

  /** It does not leave the own king attacked. */
  ghost predicate IsLegal(p: Standing, c: Color, m: Move) {
    Generated(p, c, m) && Playable(m) && !Checked(Applied(p.b, m), c)
  }

  /** The move of kind sp between two squares, as Move's constructor builds it. */
  function Built(b: Snapshot, sp: Special, from: Pos, to: Pos): Move
    requires Valid(from) && Valid(to)
  {
    Move(sp, from, to, At(b, from), At(b, to))
  }

  ghost function LegalSet(p: Standing, c: Color): set<Move> {
    set sp: Special, fr, fc, tr, tc | 0 <= fr < 8 && 0 <= fc < 8 && 0 <= tr < 8 && 0 <= tc < 8
                                      && IsLegal(p, c, Built(p.b, sp, Pos(fr, fc), Pos(tr, tc)))
      :: Built(p.b, sp, Pos(fr, fc), Pos(tr, tc))
  }

  /** The elements of a set in some order. */
  ghost function InSomeOrder(ms: set<Move>): (r: seq<Move>)
    ensures forall m :: m in r <==> m in ms
    decreases |ms|
  {
    if ms == {} then [] else
      var m :| m in ms;
      [m] + InSomeOrder(ms - {m})
  }

  ghost function LegalMoves(p: Standing, c: Color): seq<Move> { InSomeOrder(LegalSet(p, c)) }

  lemma LegalMovesExact(p: Standing, c: Color, m: Move)
    ensures m in LegalMoves(p, c) <==> IsLegal(p, c, m)
  {
    if IsLegal(p, c, m) {
      assert m == Built(p.b, m.special, Pos(m.from.r, m.from.c), Pos(m.to.r, m.to.c));
    }
  }

  /** The positions after the moves of a list. */
  ghost function PlayAll(p: Standing, ms: seq<Move>): (r: seq<Standing>)
    requires forall i | 0 <= i < |ms| :: Playable(ms[i])
    ensures |r| == |ms| && forall i | 0 <= i < |ms| :: r[i] == Play(p, ms[i])
  {
    seq(|ms|, i requires 0 <= i < |ms| => Play(p, ms[i]))
  }

  ghost function Successors(p: Standing, c: Color): seq<Standing> {
    var ms := LegalMoves(p, c);
    if forall i | 0 <= i < |ms| :: Playable(ms[i]) then PlayAll(p, ms) else []
  }

  /** q comes about by a legal move of colour c. */
  ghost predicate Follows(p: Standing, c: Color, q: Standing) {
    exists m :: IsLegal(p, c, m) && q == Play(p, m)
  }

  lemma SuccessorsExact(p: Standing, c: Color, q: Standing)
    ensures q in Successors(p, c) <==> Follows(p, c, q)
  {
    var ms := LegalMoves(p, c);
    forall i | 0 <= i < |ms| ensures Playable(ms[i]) {
      LegalMovesExact(p, c, ms[i]);
    }
    if q in Successors(p, c) {
      var i :| 0 <= i < |ms| && q == Play(p, ms[i]);
      LegalMovesExact(p, c, ms[i]);
    }
    if m :| IsLegal(p, c, m) && q == Play(p, m) {
      LegalMovesExact(p, c, m);
      var i :| 0 <= i < |ms| && ms[i] == m;
      assert Successors(p, c)[i] == q;
    }
  }

  // ----------------------------------------------------------------------- mate

  /** Colour c, to move, is mated. */
  ghost predicate Mated(p: Standing, c: Color) {
    Checked(p.b, c) && forall m :: !IsLegal(p, c, m)
  }

  /** Colour c, to move, mates within n of its moves whatever the replies: a position with no
      reply is a win only if it is mate. */
  ghost predicate ForcedMate(p: Standing, c: Color, n: nat)
    decreases n
  {
    n > 0 && exists m :: IsLegal(p, c, m) && ForcedAfter(Play(p, m), c, n)
  }

  ghost predicate ForcedAfter(q: Standing, c: Color, n: nat)
    requires n > 0
    decreases n, 0
  {
    || Mated(q, Other(c))
    || (n > 1 && (exists r :: IsLegal(q, Other(c), r))
        && forall r | IsLegal(q, Other(c), r) :: ForcedMate(Play(q, r), c, n - 1))
  }

  /** isCircularMove: q takes back the move q0 of the round before, which took nothing; the reply
      was no pawn move. */
  predicate IsCircular(p0: Standing, q0: Standing, p: Standing, q: Standing) {
    && q0.lm.from == q.lm.to && q0.lm.to == q.lm.from && q.lm.toType.Empty? && Clear(p0.b, q0.lm.to)
    && !(p.lm.fromType.Man? && p.lm.fromType.kind.Pawn?)
  }

  /** A game of ChessSearch whose moves are the legal moves of chess, in any order. */
  ghost predicate IsChess(g: Search.Game<Standing, Standing>, first: Color) {
    && (forall p, q :: q in g.maxMoves(p) <==> Follows(p, first, q))
    && (forall q, p :: p in g.minMoves(q) <==> Follows(q, Other(first), p))
    && (forall p :: g.maxChecked(p) == Checked(p.b, first))
    && (forall q :: g.minChecked(q) == Checked(q.b, Other(first)))
    && (forall p0, q0, p, q :: g.circular(p0, q0, p, q) <==> IsCircular(p0, q0, p, q))
  }

  /** There is such a game. */
  ghost function Chess(first: Color, sig: Standing -> nat): Search.Game<Standing, Standing> {
    Search.Game(p => Successors(p, first), q => Successors(q, Other(first)),
                (p: Standing) => Checked(p.b, first), (q: Standing) => Checked(q.b, Other(first)), sig, sig, IsCircular)
  }

  lemma ChessIsChess(first: Color, sig: Standing -> nat)
    ensures IsChess(Chess(first, sig), first)
  {
    forall p, c, q ensures q in Successors(p, c) <==> Follows(p, c, q) {
      SuccessorsExact(p, c, q);
    }
  }

  /** The mate values of the game are the forced mates of chess. */
  lemma {:induction false} MateIsForcedMate(g: Search.Game<Standing, Standing>, first: Color, p: Standing, n: nat)
    requires IsChess(g, first)
    ensures Search.MateMax(g, p, n) <==> ForcedMate(p, first, n)
    decreases n, 1
  {
    if n > 0 {
      if q :| q in g.maxMoves(p) && Search.MateMin(g, q, n) {
        assert Follows(p, first, q);
        MateIsForcedAfter(g, first, q, n);
      }
      if m :| IsLegal(p, first, m) && ForcedAfter(Play(p, m), first, n) {
        assert Follows(p, first, Play(p, m));
        MateIsForcedAfter(g, first, Play(p, m), n);
      }
    }
  }

  lemma {:induction false} MateIsForcedAfter(g: Search.Game<Standing, Standing>, first: Color, q: Standing, n: nat)
    requires IsChess(g, first) && n > 0
    ensures Search.MateMin(g, q, n) <==> ForcedAfter(q, first, n)
    decreases n, 0
  {
    var c := Other(first);
    NoReplies(g, first, q);
    if n > 1 {
      forall r | IsLegal(q, c, r) ensures Play(q, r) in g.minMoves(q) {
        assert Follows(q, c, Play(q, r));
      }
      forall p | p in g.minMoves(q) ensures exists r :: IsLegal(q, c, r) && p == Play(q, r) {
        assert Follows(q, c, p);
      }
      forall p | p in g.minMoves(q) ensures Search.MateMax(g, p, n - 1) <==> ForcedMate(p, first, n - 1) {
        MateIsForcedMate(g, first, p, n - 1);
      }
    }
  }

  lemma NoReplies(g: Search.Game<Standing, Standing>, first: Color, q: Standing)
    requires IsChess(g, first)
    ensures g.minMoves(q) == [] <==> forall m :: !IsLegal(q, Other(first), m)
  {
    if m :| IsLegal(q, Other(first), m) {
      assert Follows(q, Other(first), Play(q, m));
      assert Play(q, m) in g.minMoves(q);
    }
    if g.minMoves(q) != [] {
      var p := g.minMoves(q)[0];
      assert p in g.minMoves(q) && Follows(q, Other(first), p);
    }
  }

  // ------------------------------------------------- what canMove lets through is legal

  /** A generated move takes no king that it does not attack. */
  lemma KingNotTaken(p: Standing, c: Color, m: Move)
    requires Generated(p, c, m) && WellFormed(p.b, m) && Tracked(p.b) && !Checked(p.b, Other(c))
    ensures m.toType != Man(Other(c), King)
  {
    if m.toType == Man(Other(c), King) {
      assert KingPos(p.b, Other(c)) == m.to;
      assert Checks(p.b, Other(c), m.from);
    }
  }

  /** What a generated move needs for apply, undo and canMove. */
  lemma GeneratedIsWellFormed(p: Standing, c: Color, m: Move)
    requires Generated(p, c, m) && (m.special.EnPassant? ==> DoubleStepOk(p.b, p.lm))
    ensures WellFormed(p.b, m) && OwnRook(p.b, m) && m.fromType.color == c && !m.special.Castling?
  {
    if !At(p.b, m.from).kind.Pawn? {
      AttackMoveIsWellFormed(p.b, m.from, m);
    } else if m.special.EnPassant? {
      PawnMoveIsWellFormed(p.b, p.lm, m.from, m);
    }
  }

  /** After a generated move canMove, with the lists made before it and the flag of isChecking,
      accepts exactly the legal ones among the generated replies. */
  lemma AcceptedRepliesAreLegal(p: Standing, list: seq<Placed>, m: Move, reply: Move)
    requires WellFormed(p.b, m) && Generated(p, m.fromType.color, m) && Tracked(p.b)
    requires Lists(p.b, list, m.fromType.color)
    requires HasKing(p.b, Other(m.fromType.color)) && !Checked(p.b, Other(m.fromType.color))
    requires Generated(Play(p, m), Other(m.fromType.color), reply)
    ensures var q, c := Play(p, m), Other(m.fromType.color);
            && WellFormed(q.b, reply)
            && (Answer(q.b, m, list, reply, OtherChecks(q.b, c, m)) <==> IsLegal(q, c, reply))
  {
    var q := Play(p, m);
    DoubleStepHappened(p, m);
    KingNotTaken(p, m.fromType.color, m);
    GeneratedIsWellFormed(q, Other(m.fromType.color), reply);
    RepliesAreDecided(p.b, list, m, reply);
  }

  /** p is a root nobody has moved on, or came about by a generated move of the other side that
      did not meet c's king in check. */
  ghost predicate Arrived(p: Standing, c: Color) {
    p.lm == NO_MOVE
    || exists p0: Standing :: WellFormed(p0.b, p.lm) && Generated(p0, Other(c), p.lm) && p == Play(p0, p.lm) && !Checked(p0.b, c)
  }

  /** So does canMove among the generated moves of the side the round is for, with fresh lists
      and the flag of isChecked. */
  lemma AcceptedMovesAreLegal(p: Standing, list: seq<Placed>, c: Color, m: Move)
    requires Tracked(p.b) && HasKing(p.b, c) && Lists(p.b, list, Other(c)) && Arrived(p, c) && Generated(p, c, m)
    ensures WellFormed(p.b, m) && (Answer(p.b, p.lm, list, m, Checked(p.b, c)) <==> IsLegal(p, c, m))
  {
    if p.lm != NO_MOVE {
      var p0: Standing :| WellFormed(p0.b, p.lm) && Generated(p0, Other(c), p.lm) && p == Play(p0, p.lm) && !Checked(p0.b, c);
      DoubleStepHappened(p0, p.lm);
      AppliedAt(p0.b, p.lm, p.lm.to);
      GeneratedIsWellFormed(p, c, m);
      if m.special.EnPassant? {
        EnPassantIsDecided(p0.b, p.lm, m);
      }
    } else {
      GeneratedIsWellFormed(p, c, m);
    }
    ChecksSplit(p.b, c, p.lm);
    assert Current(p.b, list, Other(c), p.lm);
    AnswerIsRight(p.b, p.lm, list, m, Checked(p.b, c));
  }

  /** A generated move over two rows by a pawn is a double step. */
  lemma DoubleStepHappened(p: Standing, m: Move)
    requires WellFormed(p.b, m) && Generated(p, m.fromType.color, m)
    ensures DoubleStepOk(Applied(p.b, m), m) && !m.special.Castling?
    ensures m.fromType.kind.Pawn? && m.to.r == m.from.r + 2 * Ahead(m.fromType.color) ==>
              m.special.NormalMove? && m.toType.Empty? && m.to.c == m.from.c
  {
    if m.fromType.kind.Pawn? && m.to.r == m.from.r + 2 * Ahead(m.fromType.color) {
      var mid := Pos(m.to.r - Ahead(m.fromType.color), m.to.c);
      AppliedAt(p.b, m, mid);
      AppliedAt(p.b, m, m.to);
    }
  }

  /** A move discarded as circular puts the man back where it was, except that a man a pawn was
      promoted to goes back to the pawn's square. */
  lemma CircularTakesBack(p0: Standing, c: Color, m0: Move, r: Move, m: Move)
    requires IsLegal(p0, c, m0) && WellFormed(p0.b, m0) && IsLegal(Play(p0, m0), Other(c), r) && WellFormed(Applied(p0.b, m0), r)
    requires IsLegal(Play(Play(p0, m0), r), c, m) && WellFormed(Play(Play(p0, m0), r).b, m)
    requires var q0 := Play(p0, m0); var p := Play(q0, r); IsCircular(p0, q0, p, Play(p, m))
    ensures var b := Applied(Applied(Applied(p0.b, m0), r), m);
            && m0.special != EnPassant && m.special == NormalMove
            && At(b, m0.to) == At(p0.b, m0.to) && At(b, m0.from) == NewType(m0)
            && (At(b, m0.from) == At(p0.b, m0.from) <==> m0.special == NormalMove)
  {
    var q0 := Play(p0, m0);
    var p := Play(q0, r);
    AppliedAt(p0.b, m0, m0.to);
    AppliedAt(q0.b, r, m0.to);
    AppliedAt(p.b, m, m0.from);
    AppliedAt(p.b, m, m0.to);
  }

  // ------------------------------------------------------------ a promoted man goes back

  const KING: Pos := Pos(0, 4)
  const A7: Pos := Pos(6, 0)
  const A8: Pos := Pos(7, 0)
  const H3: Pos := Pos(2, 7)
  const H4: Pos := Pos(3, 7)

  const PROMOTES: Move := Move(QueenPromotion, A7, A8, Man(White, Pawn), Empty)
  const STEPS: Move := Move(NormalMove, H3, H4, Man(Black, King), Empty)
  const RETURNS: Move := Move(NormalMove, A8, A7, Man(White, Queen), Empty)

  /** White has the king on e1 and one man, Black the king; one of them moved last. */
  function Bare(x: Piece, at: Pos, king: Pos, lm: Move): Standing {
    Standing(Snapshot(seq(64, i requires 0 <= i < 64 => BareMan(x, at, king, Pos(i / 8, i % 8))), king, KING), lm)
  }

  function BareMan(x: Piece, at: Pos, king: Pos, p: Pos): Piece {
    if p == at then x else if p == KING then Man(White, King) else if p == king then Man(Black, King) else Empty
  }

  lemma BareAt(x: Piece, at: Pos, king: Pos, lm: Move, p: Pos)
    requires Valid(p)
    ensures At(Bare(x, at, king, lm).b, p) == BareMan(x, at, king, p)
  {
  }

  /** Neither king is attacked, but Black's perhaps by White's man. */
  lemma BareIsSafe(x: Piece, at: Pos, king: Pos, lm: Move)
    requires x.Man? && x.color.White? && Valid(at) && (king == H3 || king == H4) && at != KING && at != king
    ensures !Checked(Bare(x, at, king, lm).b, White)
    ensures !Attacks(Bare(x, at, king, lm).b, x, at, king) ==> !Checked(Bare(x, at, king, lm).b, Black)
  {
    var b := Bare(x, at, king, lm).b;
    forall p ensures !Checks(b, White, p) && (!Attacks(b, x, at, king) ==> !Checks(b, Black, p)) {
      if Valid(p) {
        BareAt(x, at, king, lm, p);
      }
    }
  }

  /** A move of one of the men leads from one such position to another. */
  lemma BareMoves(x: Piece, at: Pos, king: Pos, lm: Move, m: Move, x': Piece, at': Pos, king': Pos)
    requires Valid(at) && Valid(king) && at != king && WellFormed(Bare(x, at, king, lm).b, m) && KING !in {at, king, m.from, m.to}
    requires m.special.NormalMove? || m.special.QueenPromotion?
    requires x.Man? && x.kind != King
    requires if m.from == at then x' == NewType(m) && at' == m.to && king' == king && m.to != king && x'.kind != King
             else m.from == king && x' == x && at' == at && king' == m.to && m.to != at
    ensures Play(Bare(x, at, king, lm), m) == Bare(x', at', king', m)
  {
    var b, a := Bare(x, at, king, lm).b, Bare(x', at', king', m).b;
    BareAt(x, at, king, lm, m.from);
    forall i: int | 0 <= i < 64 ensures Applied(b, m).grid[i] == a.grid[i] {
      var p := Pos(i / 8, i % 8);
      BareAt(x, at, king, lm, p);
      BareAt(x', at', king', m, p);
      AppliedAt(b, m, p);
    }
  }

  /** A pawn is promoted on a8, the king moves, and the queen that goes back to a7 is discarded,
      although a pawn stood there. */
  lemma PromotedManIsCircular(p0: Standing, q0: Standing, p: Standing, q: Standing)
    requires p0 == Bare(Man(White, Pawn), A7, H3, NO_MOVE)
    requires q0 == Play(p0, PROMOTES) && p == Play(q0, STEPS) && q == Play(p, RETURNS)
    ensures IsLegal(p0, White, PROMOTES) && IsLegal(q0, Black, STEPS) && IsLegal(p, White, RETURNS)
    ensures IsCircular(p0, q0, p, q)
    ensures At(p0.b, A7) == Man(White, Pawn) && At(q.b, A7) == Man(White, Queen)
  {
    var pawn, queen := Man(White, Pawn), Man(White, Queen);
    BareAt(pawn, A7, H3, NO_MOVE, A7);
    BareAt(pawn, A7, H3, NO_MOVE, A8);
    BareMoves(pawn, A7, H3, NO_MOVE, PROMOTES, queen, A8, H3);
    BareIsSafe(queen, A8, H3, PROMOTES);
    QueenOnA8();
    BareAt(queen, A8, H4, STEPS, A8);
    BareAt(queen, A8, H4, STEPS, A7);
    BareMoves(queen, A8, H4, STEPS, RETURNS, queen, A7, H4);
    BareIsSafe(queen, A7, H4, RETURNS);
    BareAt(queen, A7, H4, RETURNS, A7);
    QueenSteps(p.b, queen, A8, A7);
  }

  lemma QueenOnA8()
    ensures var q0 := Bare(Man(White, Queen), A8, H3, PROMOTES);
            IsLegal(q0, Black, STEPS) && Play(q0, STEPS) == Bare(Man(White, Queen), A8, H4, STEPS)
  {
    var queen := Man(White, Queen);
    var q0 := Bare(queen, A8, H3, PROMOTES);
    BareAt(queen, A8, H3, PROMOTES, H3);
    BareAt(queen, A8, H3, PROMOTES, H4);
    BareMoves(queen, A8, H3, PROMOTES, STEPS, queen, A8, H4);
    SlidesTowards(Bare(queen, A8, H4, STEPS).b, Queen, A8, H4);
    BareIsSafe(queen, A8, H4, STEPS);
  }

  lemma QueenSteps(b: Snapshot, x: Piece, src: Pos, tgt: Pos)
    requires x == Man(White, Queen) && Valid(src) && tgt == Pos(src.r - 1, src.c) && Valid(tgt)
    ensures Attacks(b, x, src, tgt)
  {
    var st := Step(-1, 0);
    assert ReachesIn(b, src, tgt, st, 1);
    assert Slides(b, Queen, src, tgt);
  }
}
