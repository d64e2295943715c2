/**
 * Two positions on the same squares, one mate and one not, and two roots that lead to them:
 * searched one after the other with the cache that all searches share, the second root's mate
 * in one is missed.
 */
module ChessStudy {
  import opened Common
  import opened ChessModel
  import opened ChessBoard
  import opened ChessMoves
  import opened ChessLegality
  import opened ChessGame
  import opened ChessCalm
  import Search = ChessSearch

  // ------------------------------------------------------------------- the position

  /** White: king h1, pawn c3 and a pawn on w.  Black: king a5, queen f2, pawns h3, a4, c4, a6,
      b6, b5. */
  function Men(p: Pos, w: Pos): Piece {
    if p == w || p == Pos(2, 2) then Man(White, Pawn)
    else if p == Pos(0, 7) then Man(White, King)
    else if p == Pos(4, 0) then Man(Black, King)
    else if p == Pos(1, 5) then Man(Black, Queen)
    else if p in {Pos(2, 7), Pos(3, 0), Pos(3, 2), Pos(5, 0), Pos(5, 1), Pos(4, 1)} then Man(Black, Pawn)
    else Empty
  }

  function Study(w: Pos): Snapshot {
    Snapshot(seq(64, i requires 0 <= i < 64 => Men(Pos(i / 8, i % 8), w)), Pos(4, 0), Pos(0, 7))
  }

  lemma StudyAt(w: Pos, p: Pos)
    requires Valid(p)
    ensures At(Study(w), p) == Men(p, w)
  {
  }

  const B2: Pos := Pos(1, 1)
  const B3: Pos := Pos(2, 1)
  const B4: Pos := Pos(3, 1)
  const A4: Pos := Pos(3, 0)
  const C4: Pos := Pos(3, 2)

  const B2_B4: Move := Move(NormalMove, B2, B4, Man(White, Pawn), Empty)
  const B3_B4: Move := Move(NormalMove, B3, B4, Man(White, Pawn), Empty)
  const A4_B3: Move := Move(EnPassant, A4, B3, Man(Black, Pawn), Empty)
  const QUEEN_G2: Move := Move(NormalMove, Pos(1, 5), Pos(1, 6), Man(Black, Queen), Empty)

  /** The pawn stands where it can step to b4, and nobody has moved. */
  function Root(w: Pos): Standing { Standing(Study(w), NO_MOVE) }

  const STEPPED: Standing := Standing(Study(B4), B3_B4)
  const LEAPT: Standing := Standing(Study(B4), B2_B4)

  lemma StudyTracked(w: Pos)
    requires Valid(w) && w.c < 4 && 0 < w.r < 4
    ensures Tracked(Study(w)) && HasKing(Study(w), White) && HasKing(Study(w), Black)
  {
    forall p | Valid(p) && At(Study(w), p).Man? && At(Study(w), p).kind.King? ensures KingPos(Study(w), At(Study(w), p).color) == p {
      StudyAt(w, p);
    }
    StudyAt(w, Pos(0, 7));
    StudyAt(w, Pos(4, 0));
  }

  // ------------------------------------------------------- after the pawn came to b4

  /** A man of the other side that stands beside the king, or a pawn before it, checks. */
  lemma NeighbourChecks(b: Snapshot, c: Color, q: Pos)
    requires Valid(q) && At(b, q).Man? && At(b, q).color != c
    requires Jumps(At(b, q), q, KingPos(b, c)) || (At(b, q).kind.Queen? && Abs(q.r - KingPos(b, c).r) <= 1 && Abs(q.c - KingPos(b, c).c) <= 1
                                                   && q != KingPos(b, c) && Valid(KingPos(b, c)))
    ensures Checked(b, c)
  {
    var king := KingPos(b, c);
    if !Jumps(At(b, q), q, king) {
      var st := Step(king.r - q.r, king.c - q.c);
      assert ReachesIn(b, q, king, st, 1);
      assert Slides(b, Queen, q, king);
    }
    assert Checks(b, c, q);
  }

  /** Without a capture en passant the pawn on b4 mates. */
  lemma SteppedIsMate(m: Move)
    requires Generated(STEPPED, Black, m) && Playable(m)
    ensures !IsLegal(STEPPED, Black, m)
  {
    var b := Study(B4);
    assert !m.special.EnPassant? by { StudyAt(B4, m.from); }
    GeneratedIsWellFormed(STEPPED, Black, m);
    StudyAt(B4, m.from);
    StudyAt(B4, m.to);
    var a := Applied(b, m);
    AppliedAt(b, m, B4);
    AppliedAt(b, m, Pos(2, 2));
    StudyAt(B4, B4);
    StudyAt(B4, Pos(2, 2));
    if m.from == Pos(4, 0) {
      KingCorner(m);
      NeighbourChecks(a, Black, Pos(2, 2));
    } else {
      PawnIsSafe(m);
      NeighbourChecks(a, Black, B4);
    }
  }

  /** The king on a5 could only take the pawn. */
  lemma KingCorner(m: Move)
    requires AttackMove(Study(B4), Pos(4, 0), m)
    ensures m.to == B4
  {
    StudyAt(B4, m.from);
    StudyAt(B4, m.to);
  }

  /** Nobody else can. */
  lemma PawnIsSafe(m: Move)
    requires Generated(STEPPED, Black, m) && m.from != Pos(4, 0) && !m.special.EnPassant?
    ensures m.to != B4
  {
    StudyAt(B4, m.from);
    StudyAt(B4, m.to);
    if m.from == Pos(1, 5) {
      SlidesTowards(Study(B4), Queen, m.from, B4);
    }
  }

  lemma SteppedIsMated()
    ensures Mated(STEPPED, Black)
  {
    StudyAt(B4, B4);
    NeighbourChecks(Study(B4), Black, B4);
    forall m ensures !IsLegal(STEPPED, Black, m) {
      if Generated(STEPPED, Black, m) && Playable(m) {
        SteppedIsMate(m);
      }
    }
  }

  /** After the double step a4xb3 answers it. */
  lemma PassingIsLegal()
    ensures IsLegal(LEAPT, Black, A4_B3) && WellFormed(Study(B4), A4_B3)
  {
    var b := Study(B4);
    StudyAt(B4, A4);
    StudyAt(B4, B3);
    StudyAt(B4, B4);
    forall p ensures !Checks(Applied(b, A4_B3), Black, p) {
      if Valid(p) {
        AppliedAt(b, A4_B3, p);
        StudyAt(B4, p);
      }
    }
  }

  // --------------------------------------------------------------- White cannot move

  /** The queen on f2 takes every square from the king on h1. */
  lemma CagedKing(b: Snapshot, m: Move)
    requires At(b, Pos(0, 7)) == Man(White, King) && KingPos(b, White) == Pos(0, 7)
    requires At(b, Pos(1, 5)) == Man(Black, Queen) && Clear(b, Pos(1, 6)) && AttackMove(b, Pos(0, 7), m)
    ensures Checked(Applied(b, m), White)
  {
    var a := Applied(b, m);
    AttackMoveIsWellFormed(b, Pos(0, 7), m);
    AppliedAt(b, m, Pos(1, 5));
    if m.to == Pos(1, 7) {
      AppliedAt(b, m, Pos(1, 6));
      assert ReachesIn(a, Pos(1, 5), Pos(1, 7), Step(0, 1), 2);
      assert Checks(a, White, Pos(1, 5));
    } else {
      NeighbourChecks(a, White, Pos(1, 5));
    }
  }

  /** The queen on g2, guarded by the pawn on h3, mates a king on h1. */
  lemma GuardedQueenMates(p: Standing, m: Move)
    requires At(p.b, Pos(0, 7)) == Man(White, King) && KingPos(p.b, White) == Pos(0, 7)
    requires At(p.b, Pos(1, 6)) == Man(Black, Queen) && At(p.b, Pos(2, 7)) == Man(Black, Pawn) && !p.lm.fromType.Empty? && !p.lm.fromType.kind.Pawn?
    requires forall q | Valid(q) && At(p.b, q).Man? && At(p.b, q).color.White? && q != Pos(0, 7) :: At(p.b, q).kind.Pawn? && q.r > 1
    ensures !IsLegal(p, White, m)
  {
    if Generated(p, White, m) {
      assert !m.special.EnPassant?;
      GeneratedIsWellFormed(p, White, m);
      var a := Applied(p.b, m);
      AppliedAt(p.b, m, Pos(1, 6));
      AppliedAt(p.b, m, Pos(2, 7));
      if m.to == Pos(1, 6) {
        NeighbourChecks(a, White, Pos(2, 7));
      } else {
        NeighbourChecks(a, White, Pos(1, 6));
      }
    }
  }

  lemma QueenIsWellFormed(w: Pos)
    requires w == B3 || w == A4 || w == C4
    ensures AttackMove(Study(w), Pos(1, 5), QUEEN_G2) && WellFormed(Study(w), QUEEN_G2)
  {
    StudyAt(w, Pos(1, 5));
    StudyAt(w, Pos(1, 6));
    assert ReachesIn(Study(w), Pos(1, 5), Pos(1, 6), Step(0, 1), 1);
    assert Slides(Study(w), Queen, Pos(1, 5), Pos(1, 6));
  }

  lemma QueenBoard(w: Pos, x: Pos)
    requires (w == B3 || w == A4 || w == C4) && Valid(x) && WellFormed(Study(w), QUEEN_G2)
    ensures At(Applied(Study(w), QUEEN_G2), x) == if x == Pos(1, 6) then Man(Black, Queen) else if x == Pos(1, 5) then Empty else Men(x, w)
  {
    AppliedAt(Study(w), QUEEN_G2, x);
    StudyAt(w, x);
  }

  lemma QueenLeavesNoCheck(w: Pos)
    requires (w == B3 || w == A4 || w == C4) && WellFormed(Study(w), QUEEN_G2)
    ensures !Checked(Applied(Study(w), QUEEN_G2), Black)
  {
    forall x ensures !Checks(Applied(Study(w), QUEEN_G2), Black, x) {
      if Valid(x) {
        QueenBoard(w, x);
      }
    }
  }

  /** White's pawn has moved elsewhere than to b4: Black mates at once. */
  lemma QueenReplies(q: Standing, w: Pos)
    requires q.b == Study(w) && (w == B3 || w == A4 || w == C4)
    ensures IsLegal(q, Black, QUEEN_G2) && forall m :: !IsLegal(Play(q, QUEEN_G2), White, m)
  {
    QueenIsWellFormed(w);
    QueenLeavesNoCheck(w);
    StudyAt(w, Pos(1, 5));
    var p := Play(q, QUEEN_G2);
    QueenBoard(w, Pos(0, 7));
    QueenBoard(w, Pos(1, 6));
    QueenBoard(w, Pos(2, 7));
    forall x | Valid(x) && At(p.b, x).Man? && At(p.b, x).color.White? && x != Pos(0, 7) ensures At(p.b, x).kind.Pawn? && x.r > 1 {
      QueenBoard(w, x);
    }
    forall m ensures !IsLegal(p, White, m) {
      GuardedQueenMates(p, m);
    }
  }

  lemma PassingBoard(x: Pos)
    requires Valid(x) && WellFormed(Study(B4), A4_B3)
    ensures At(Applied(Study(B4), A4_B3), x) ==
            if x == B3 then Man(Black, Pawn) else if x == A4 || x == B4 then Empty else Men(x, B4)
  {
    AppliedAt(Study(B4), A4_B3, x);
    StudyAt(B4, x);
  }

  /** The pawn on c3 has nowhere to go. */
  lemma BlockedPawn(p: Standing, m: Move)
    requires At(p.b, Pos(2, 2)) == Man(White, Pawn) && At(p.b, C4).Man? && At(p.b, B4).Empty? && At(p.b, Pos(3, 3)).Empty?
    requires m.from == Pos(2, 2)
    ensures !Generated(p, White, m)
  {
  }

  /** After a4xb3 White is stalemated. */
  lemma NothingAfterPassing(m: Move)
    requires WellFormed(Study(B4), A4_B3)
    ensures !IsLegal(Play(LEAPT, A4_B3), White, m)
  {
    var p := Play(LEAPT, A4_B3);
    PassingBoard(Pos(0, 7));
    PassingBoard(Pos(1, 5));
    PassingBoard(Pos(1, 6));
    if Generated(p, White, m) {
      PassingBoard(m.from);
      if m.from == Pos(0, 7) {
        CagedKing(p.b, m);
      } else {
        PassingBoard(Pos(2, 2));
        PassingBoard(C4);
        PassingBoard(B4);
        PassingBoard(Pos(3, 3));
        BlockedPawn(p, m);
      }
    }
  }

  // --------------------------------------------------------------- White's moves at the roots

  lemma GridsAgree(a: Snapshot, b: Snapshot)
    requires forall p | Valid(p) :: At(a, p) == At(b, p)
    ensures a.grid == b.grid
  {
    forall i | 0 <= i < 64 ensures a.grid[i] == b.grid[i] {
      assert At(a, Pos(i / 8, i % 8)) == At(b, Pos(i / 8, i % 8));
    }
  }

  /** What a pawn on b2 or b3 can do. */
  ghost predicate PawnGoes(w: Pos, m: Move) {
    && m.special.NormalMove? && m.from == w && m.fromType == Man(White, Pawn) && m.toType == Men(m.to, w)
    && if w == B2 then m.to == B3 || m.to == B4 else m.to == B4 || m.to == A4 || m.to == C4
  }

  lemma RootPawn(w: Pos, m: Move)
    requires (w == B2 || w == B3) && Generated(Root(w), White, m) && m.from == w
    ensures PawnGoes(w, m)
  {
    StudyAt(w, m.from);
    StudyAt(w, m.to);
  }

  lemma RootOthers(w: Pos, m: Move)
    requires (w == B2 || w == B3) && IsLegal(Root(w), White, m)
    ensures m.from == w
  {
    StudyAt(w, m.from);
    if m.from == Pos(0, 7) {
      StudyAt(w, Pos(1, 5));
      StudyAt(w, Pos(1, 6));
      CagedKing(Study(w), m);
    } else if m.from == Pos(2, 2) {
      StudyAt(w, C4);
      StudyAt(w, B4);
      StudyAt(w, Pos(3, 3));
      BlockedPawn(Root(w), m);
    }
  }

  lemma RootBoard(w: Pos, m: Move)
    requires (w == B2 || w == B3) && PawnGoes(w, m) && WellFormed(Study(w), m)
    ensures Applied(Study(w), m) == Study(m.to)
  {
    forall x | Valid(x) ensures At(Applied(Study(w), m), x) == At(Study(m.to), x) {
      AppliedAt(Study(w), m, x);
      StudyAt(w, x);
      StudyAt(m.to, x);
    }
    GridsAgree(Applied(Study(w), m), Study(m.to));
  }

  /** Only the b-pawn can move: ahead, or from b3 taking the pawn on a4 or c4. */
  lemma RootMoves(w: Pos, m: Move)
    requires (w == B2 || w == B3) && IsLegal(Root(w), White, m)
    ensures PawnGoes(w, m) && Applied(Study(w), m) == Study(m.to)
  {
    RootOthers(w, m);
    RootPawn(w, m);
    GeneratedIsWellFormed(Root(w), White, m);
    RootBoard(w, m);
  }

  // ------------------------------------------------------------------- mate values

  lemma SteppedMates(g: Chess)
    requires IsChess(g, White)
    ensures Search.MateMin(g, STEPPED, 1)
  {
    SteppedIsMated();
    NoReplies(g, White, STEPPED);
  }

  /** A reply after which White has no move keeps q from being a win. */
  lemma Refuted(g: Chess, q: Standing, r: Move)
    requires IsChess(g, White) && IsLegal(q, Black, r) && forall m :: !IsLegal(Play(q, r), White, m)
    ensures !Search.MateMin(g, q, 2)
  {
    var p := Play(q, r);
    assert Follows(q, Black, p);
    assert p in g.minMoves(q);
    forall x ensures x !in g.maxMoves(p) {
      assert !Follows(p, White, x);
    }
    assert !Search.MateMax(g, p, 1);
  }

  lemma LeaptIsNoMate(g: Chess)
    requires IsChess(g, White)
    ensures !Search.MateMin(g, LEAPT, 2)
  {
    PassingIsLegal();
    forall m ensures !IsLegal(Play(LEAPT, A4_B3), White, m) {
      NothingAfterPassing(m);
    }
    Refuted(g, LEAPT, A4_B3);
  }

  lemma ElsewhereIsNoMate(g: Chess, q: Standing)
    requires IsChess(g, White) && Elsewhere(q.b)
    ensures !Search.MateMin(g, q, 2)
  {
    var w :| (w == B3 || w == A4 || w == C4) && q.b == Study(w);
    QueenReplies(q, w);
    Refuted(g, q, QUEEN_G2);
  }

  /** The caches take the two positions for one, wherever both may come up. */
  lemma SquaresAreNotEnough(g: Chess, d: Region)
    requires IsChess(g, White) && (forall q: Standing, q': Standing | q.b.grid == q'.b.grid :: g.sigQ(q) == g.sigQ(q'))
    requires Search.InQ(d, STEPPED) && Search.InQ(d, LEAPT)
    ensures !Search.HashOk(g, d)
  {
    SteppedMates(g);
    LeaptIsNoMate(g);
    assert !Search.MateMin(g, LEAPT, 1) by {
      if Search.MateMin(g, LEAPT, 1) {
        Search.MateMinMonotone(g, LEAPT, 1, 2);
      }
    }
    assert g.sigQ(STEPPED) == g.sigQ(LEAPT);
  }

  // ------------------------------------------------------- what two short searches meet

  /** White's pawn on b3, a4 or c4. */
  ghost predicate Elsewhere(b: Snapshot) {
    exists w :: (w == B3 || w == A4 || w == C4) && b == Study(w)
  }

  /** Some black man has left its square. */
  ghost predicate Gone(b: Snapshot) {
    exists x :: Valid(x) && Men(x, B4).Man? && Men(x, B4).color.Black? && At(b, x) != Men(x, B4)
  }

  /** The positions of searches for two moves from b2, and from b3 but for the move to b4. */
  ghost predicate MetP(p: Standing, n: int) {
    (n == 2 && p == Root(B2)) || (n == 1 && Calm(p, White) && Gone(p.b))
  }

  ghost predicate MetQ(q: Standing, n: int) {
    || (n == 2 && (q == LEAPT || (Calm(q, Black) && Elsewhere(q.b))))
    || (n == 1 && Calm(q, Black) && Gone(q.b))
  }

  ghost function Met(): Region { Search.Domain((p, n) => MetP(p, n), (q, n) => MetQ(q, n)) }

  lemma QuietKings(w: Pos)
    requires w == B2 || w == B3 || w == B4 || w == A4 || w == C4
    ensures !Checked(Study(w), White) && (w == B2 || w == B3 ==> !Checked(Study(w), Black))
  {
    SlidesTowards(Study(w), Queen, Pos(1, 5), Pos(0, 7));
    forall x ensures !Checks(Study(w), White, x) && (w == B2 || w == B3 ==> !Checks(Study(w), Black, x)) {
      if Valid(x) {
        StudyAt(w, x);
      }
    }
  }

  lemma StudyPawns(w: Pos)
    requires w == B3 || w == B4 || w == A4 || w == C4
    ensures PawnsMoved(Study(w), White) && PawnsMoved(Study(w), Black)
  {
    forall x, c | Valid(x) && At(Study(w), x) == Man(c, Pawn) ensures Advance(c, x.r) > 0 {
      StudyAt(w, x);
    }
  }

  lemma StudyIsCalm(q: Standing, w: Pos, c: Color)
    requires q.b == Study(w) && (w == B3 || w == A4 || w == C4) && !DoubleStep(q.lm, White) && !DoubleStep(q.lm, Black)
    requires c == White ==> w == B3
    ensures Calm(q, c)
  {
    StudyTracked(w);
    QuietKings(w);
    StudyPawns(w);
  }

  /** White's moves at the two roots lead to positions met, but for the step to b4. */
  lemma RootLeads(w: Pos, q: Standing)
    requires (w == B2 || w == B3) && Follows(Root(w), White, q)
    ensures MetQ(q, 2) || (w == B3 && q == STEPPED)
  {
    var m :| IsLegal(Root(w), White, m) && q == Play(Root(w), m);
    RootMoves(w, m);
    PawnLeads(w, m, q);
  }

  lemma PawnLeads(w: Pos, m: Move, q: Standing)
    requires (w == B2 || w == B3) && PawnGoes(w, m) && q == Standing(Study(m.to), m)
    ensures MetQ(q, 2) || (w == B3 && q == STEPPED)
  {
    if m.to == B4 {
      assert m == if w == B2 then B2_B4 else B3_B4;
    } else {
      StudyIsCalm(q, m.to, Black);
    }
  }

  /** After the double step Black can only take the pawn in passing. */
  lemma LeaptReply(r: Move)
    requires IsLegal(LEAPT, Black, r)
    ensures r.special.EnPassant? && WellFormed(Study(B4), r) && r.fromType == Man(Black, Pawn) && r.to == B3 && r.from.r == 3
  {
    StudyAt(B4, r.from);
    if !r.special.EnPassant? {
      assert Generated(STEPPED, Black, r);
      SteppedIsMate(r);
    }
    StudyAt(B4, B3);
    StudyAt(B4, B4);
  }

  lemma LeaptProper(r: Move)
    requires IsLegal(LEAPT, Black, r) && WellFormed(Study(B4), r) && r.fromType == Man(Black, Pawn) && r.special.EnPassant?
    ensures Proper(Play(LEAPT, r), White)
  {
    StudyTracked(B4);
    QuietKings(B4);
    ProperStays(LEAPT, Black, r);
  }

  lemma LeaptPawns(r: Move, x: Pos, c: Color)
    requires WellFormed(Study(B4), r) && r.special.EnPassant? && r.fromType == Man(Black, Pawn) && r.to == B3
    requires Valid(x) && At(Applied(Study(B4), r), x) == Man(c, Pawn)
    ensures Advance(c, x.r) > 0
  {
    StudyPawns(B4);
    AppliedAt(Study(B4), r, x);
  }

  lemma LeaptLeads(p: Standing)
    requires Follows(LEAPT, Black, p)
    ensures MetP(p, 1)
  {
    var r :| IsLegal(LEAPT, Black, r) && p == Play(LEAPT, r);
    LeaptReply(r);
    LeaptProper(r);
    forall x, c | Valid(x) && At(p.b, x) == Man(c, Pawn) ensures Advance(c, x.r) > 0 {
      LeaptPawns(r, x, c);
    }
    assert PawnsMoved(p.b, White) && PawnsMoved(p.b, Black);
    BlackLeaves(B4, r);
  }

  lemma BlackLeaves(w: Pos, r: Move)
    requires WellFormed(Study(w), r) && r.fromType.color.Black? && (w == B3 || w == A4 || w == C4 || w == B4)
    ensures Gone(Applied(Study(w), r))
  {
    StudyAt(w, r.from);
    AppliedAt(Study(w), r, r.from);
    assert Valid(r.from) && At(Applied(Study(w), r), r.from) != Men(r.from, B4);
  }

  /** Black's reply leaves a square. */
  lemma ReplyLeaves(q: Standing, p: Standing)
    requires Calm(q, Black) && Elsewhere(q.b) && Follows(q, Black, p)
    ensures MetP(p, 1)
  {
    var r :| IsLegal(q, Black, r) && p == Play(q, r);
    CalmStays(q, Black, r);
    CalmMoveIsWellFormed(q, Black, r);
    var w :| (w == B3 || w == A4 || w == C4) && q.b == Study(w);
    BlackLeaves(w, r);
  }

  /** White does not bring it back. */
  lemma GoneStays(p: Standing, q: Standing)
    requires Calm(p, White) && Gone(p.b) && Follows(p, White, q)
    ensures MetQ(q, 1)
  {
    var m :| IsLegal(p, White, m) && q == Play(p, m);
    CalmStays(p, White, m);
    CalmMoveIsWellFormed(p, White, m);
    var x :| Valid(x) && Men(x, B4).Man? && Men(x, B4).color.Black? && At(p.b, x) != Men(x, B4);
    AppliedAt(p.b, m, x);
    assert Gone(q.b);
  }

  lemma MetIsClosed(g: Chess)
    requires IsChess(g, White)
    ensures Search.Closed(g, Met())
  {
    forall p, q, n | MetP(p, n) && q in g.maxMoves(p) ensures MetQ(q, n) {
      if n == 2 {
        RootLeads(B2, q);
      } else {
        GoneStays(p, q);
      }
    }
    forall q, p, n | n > 1 && MetQ(q, n) && p in g.minMoves(q) ensures MetP(p, n - 1) {
      if q == LEAPT {
        LeaptLeads(p);
      } else {
        ReplyLeaves(q, p);
      }
    }
  }

  /** The other positions met have other squares than the double step left. */
  lemma OtherSquares(q: Standing)
    requires Elsewhere(q.b) || Gone(q.b)
    ensures q.b.grid != Study(B4).grid
  {
    if Gone(q.b) {
      var x :| Valid(x) && Men(x, B4).Man? && Men(x, B4).color.Black? && At(q.b, x) != Men(x, B4);
      StudyAt(B4, x);
    } else {
      var w :| (w == B3 || w == A4 || w == C4) && q.b == Study(w);
      StudyAt(w, B4);
      StudyAt(B4, B4);
    }
  }

  lemma RootSquares(p: Standing)
    requires Gone(p.b)
    ensures p.b.grid != Study(B2).grid
  {
    var x :| Valid(x) && Men(x, B4).Man? && Men(x, B4).color.Black? && At(p.b, x) != Men(x, B4);
    StudyAt(B2, x);
  }

  lemma MetSuits(g: Chess)
    requires IsChess(g, White) && SquaresOnly(g)
    ensures Search.HashOk(g, Met())
  {
    var d := Met();
    forall p, p', n: int | Search.InP(d, p) && Search.InP(d, p') && g.sigP(p) == g.sigP(p')
      ensures Search.MateMax(g, p, n) <==> Search.MateMax(g, p', n)
    {
      MetPSame(g, p, p', n);
    }
    forall q, q', n: int | Search.InQ(d, q) && Search.InQ(d, q') && g.sigQ(q) == g.sigQ(q')
      ensures Search.MateMin(g, q, n) <==> Search.MateMin(g, q', n)
    {
      MetQSame(g, q, q', n);
    }
  }

  lemma MetPSame(g: Chess, p: Standing, p': Standing, n: int)
    requires IsChess(g, White) && Search.InP(Met(), p) && Search.InP(Met(), p') && p.b.grid == p'.b.grid
    ensures Search.MateMax(g, p, n) <==> Search.MateMax(g, p', n)
  {
    if p != p' {
      if Gone(p.b) {
        RootSquares(p);
      } else {
        RootSquares(p');
      }
      GridTells(p, p', White, White);
      CalmRights(p, p', White);
      SameMax(g, White, p, p', n);
    }
  }

  lemma MetQSame(g: Chess, q: Standing, q': Standing, n: int)
    requires IsChess(g, White) && Search.InQ(Met(), q) && Search.InQ(Met(), q') && q.b.grid == q'.b.grid
    ensures Search.MateMin(g, q, n) <==> Search.MateMin(g, q', n)
  {
    if q != q' {
      if q != LEAPT {
        OtherSquares(q);
      } else {
        OtherSquares(q');
      }
      GridTells(q, q', Black, Black);
      CalmRights(q, q', Black);
      SameMin(g, White, q, q', n);
    }
  }

  // ------------------------------------------------------------- the cache left by b2 misleads b3

  lemma RootsLead(g: Chess)
    requires IsChess(g, White)
    ensures LEAPT in g.maxMoves(Root(B2)) && STEPPED in g.maxMoves(Root(B3))
  {
    QuietKings(B4);
    forall w | w == B2 || w == B3 ensures Follows(Root(w), White, if w == B2 then LEAPT else STEPPED) {
      PawnToB4(w);
    }
  }

  lemma PawnToB4(w: Pos)
    requires (w == B2 || w == B3) && !Checked(Study(B4), White)
    ensures var m := if w == B2 then B2_B4 else B3_B4;
            IsLegal(Root(w), White, m) && Play(Root(w), m) == if w == B2 then LEAPT else STEPPED
  {
    var m := if w == B2 then B2_B4 else B3_B4;
    StudyAt(w, w);
    StudyAt(w, B4);
    StudyAt(w, B3);
    assert Generated(Root(w), White, m);
    forall x | Valid(x) ensures At(Applied(Study(w), m), x) == At(Study(B4), x) {
      AppliedAt(Study(w), m, x);
      StudyAt(w, x);
      StudyAt(B4, x);
    }
    GridsAgree(Applied(Study(w), m), Study(B4));
  }

  lemma MateInOne(g: Chess)
    requires IsChess(g, White)
    ensures Calm(Root(B3), White) && ForcedMate(Root(B3), White, 1)
    ensures !ForcedMate(Root(B2), White, 2)
  {
    StudyIsCalm(Root(B3), B3, White);
    RootsLead(g);
    SteppedMates(g);
    MateIsForcedMate(g, White, Root(B3), 1);
    MateIsForcedMate(g, White, Root(B2), 2);
    forall q | q in g.maxMoves(Root(B2)) ensures !Search.MateMin(g, q, 2) {
      MetIsNoMate(g, q, B2);
    }
  }

  lemma MetIsNoMate(g: Chess, q: Standing, w: Pos)
    requires IsChess(g, White) && (w == B2 || w == B3) && Follows(Root(w), White, q) && q != STEPPED
    ensures !Search.MateMin(g, q, 2)
  {
    RootLeads(w, q);
    if q == LEAPT {
      LeaptIsNoMate(g);
    } else {
      var m :| IsLegal(Root(w), White, m) && q == Play(Root(w), m);
      RootMoves(w, m);
      ElsewhereIsNoMate(g, q);
    }
  }

  /** Two searches for two moves, one after the other: the first answers right that there is no
      mate; the second, on a calm root with a mate in one, says the same. */
  method SharedCacheMissesMate(search: Search.Search<Standing, Standing>) returns (first: int, second: int)
    requires IsChess(search.g, White) && SquaresOnly(search.g) && search.minStoreLevel <= 2
    requires search.maxSignatures == map[] && search.minSignatures == map[] && search.solutionMap == map[] && search.forest == []
    modifies search
    ensures first < Search.CHECKMATE && !ForcedMate(Root(B2), White, 2)
    ensures second < Search.CHECKMATE && Calm(Root(B3), White) && ForcedMate(Root(B3), White, 1)
  {
    Prepared(search.g);
    first := SearchB2(search);
    second := SearchB3(search);
  }

  method SearchB2(search: Search.Search<Standing, Standing>) returns (score: int)
    requires IsChess(search.g, White) && SquaresOnly(search.g) && search.minStoreLevel <= 2
    requires search.maxSignatures == map[] && search.minSignatures == map[] && search.solutionMap == map[] && search.forest == []
    modifies search
    ensures score < Search.CHECKMATE && search.Safe() && search.Ok(Met())
    ensures Search.Settled(search.maxSignatures, search.g.sigQ(LEAPT), 2)
  {
    B2IsMet(search);
    var r: Search.Round<Standing, Standing>;
    score, r := search.Expand(Root(B2), None, 2, Met());
    if score == Search.CHECKMATE {
      NotComplete(search.g, search.solutionMap, B2, r);
    }
  }

  lemma B2IsMet(search: Search.Search<Standing, Standing>)
    requires IsChess(search.g, White) && SquaresOnly(search.g)
    requires search.maxSignatures == map[] && search.minSignatures == map[] && search.solutionMap == map[] && search.forest == []
    ensures search.Safe() && search.Ok(Met()) && search.Enterable(Met(), Root(B2), 2) && LEAPT in search.g.maxMoves(Root(B2))
  {
    MetIsClosed(search.g);
    MetSuits(search.g);
    search.FreshIsOk(Met());
    search.InsideIsEnterable(Met(), Root(B2), 2);
    RootsLead(search.g);
  }

  method SearchB3(search: Search.Search<Standing, Standing>) returns (score: int)
    requires IsChess(search.g, White) && SquaresOnly(search.g) && search.Safe() && search.Ok(Met())
    requires Search.Settled(search.maxSignatures, search.g.sigQ(LEAPT), 2)
    modifies search
    ensures score < Search.CHECKMATE
  {
    FailureIsCached(search, Met());
    var r: Search.Round<Standing, Standing>;
    score, r := search.Expand(Root(B3), None, 2, Met());
    if score == Search.CHECKMATE {
      NotComplete(search.g, search.solutionMap, B3, r);
    }
  }

  lemma NotComplete(g: Chess, sm: map<nat, nat>, w: Pos, r: Search.Round<Standing, Standing>)
    requires IsChess(g, White) && SquaresOnly(g) && (w == B2 || w == B3) && r.best.Some? && MetQ(r.best.value, 2)
    ensures !Search.Complete(g, sm, Root(w), 2, r)
  {
    Prepared(g);
  }

  /** None of the moves met at this root mates within two. */
  ghost predicate MovesFail(g: Chess, w: Pos) {
    forall q | q in g.maxMoves(Root(w)) && MetQ(q, 2) :: !Search.MateMin(g, q, 2)
  }

  lemma Prepared(g: Chess)
    requires IsChess(g, White) && SquaresOnly(g)
    ensures Search.Closed(g, Met()) && Search.HashOk(g, Met()) && MovesFail(g, B2) && MovesFail(g, B3)
    ensures LEAPT in g.maxMoves(Root(B2)) && Calm(Root(B3), White)
    ensures ForcedMate(Root(B3), White, 1) && !ForcedMate(Root(B2), White, 2)
  {
    MetIsClosed(g);
    MetSuits(g);
    MateInOne(g);
    RootsLead(g);
    forall w, q | (w == B2 || w == B3) && q in g.maxMoves(Root(w)) && MetQ(q, 2) ensures !Search.MateMin(g, q, 2) {
      SteppedIsNotMet();
      MetIsNoMate(g, q, w);
    }
  }

  lemma SteppedIsNotMet()
    ensures !MetQ(STEPPED, 2)
  {
    if Elsewhere(STEPPED.b) {
      OtherSquares(STEPPED);
    }
  }

  /** What the first search leaves makes the second believe that b3-b4 fails. */
  lemma FailureIsCached(search: Search.Search<Standing, Standing>, d: Region)
    requires IsChess(search.g, White) && SquaresOnly(search.g) && d == Met() && search.Ok(d)
    requires Search.Settled(search.maxSignatures, search.g.sigQ(LEAPT), 2)
    ensures search.Enterable(d, Root(B3), 2)
  {
    var g, c := search.g, search.maxSignatures;
    assert search.Right(d);
    assert MetQ(LEAPT, 2) && d.inQ(LEAPT, 2) && Search.InQ(d, LEAPT);
    LeaptIsNoMate(g);
    if Search.Hi(c, g.sigQ(LEAPT)) <= 2 {
      Search.MateMinMonotone(g, LEAPT, Search.Hi(c, g.sigQ(LEAPT)), 2);
    }
    assert g.sigQ(STEPPED) == g.sigQ(LEAPT);
    forall q | q in g.maxMoves(Root(B3)) ensures d.inQ(q, 2) || Search.Lo(c, g.sigQ(q)) >= 2 {
      RootLeads(B3, q);
    }
  }
}
