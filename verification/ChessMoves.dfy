/** The move generators of the pieces, against the attack relation of ChessModel. */
module ChessMoves {
  import opened ChessModel
  import opened ChessBoard

  /** A Move built from a board, as Move's constructor does. */
  predicate BuiltFrom(b: Snapshot, src: Pos, m: Move) {
    Valid(src) && Valid(m.to) && m == Move(m.special, src, m.to, At(b, src), At(b, m.to))
  }

  /** An ordinary move to a square the piece attacks and its own side does not occupy. */
  ghost predicate AttackMove(b: Snapshot, src: Pos, m: Move) {
    && BuiltFrom(b, src, m) && m.special.NormalMove?
    && Attacks(b, At(b, src), src, m.to) && !SameColor(At(b, src), At(b, m.to))
  }

  /** The same along one line. */
  ghost predicate LineMove(b: Snapshot, src: Pos, st: Step, m: Move) {
    && BuiltFrom(b, src, m) && m.special.NormalMove?
    && Reaches(b, src, m.to, st) && !SameColor(At(b, src), At(b, m.to))
  }

  ghost predicate Within(src: Pos, st: Step, p: Pos, i: nat) {
    exists k :: 0 < k <= i && p == Along(src, st, k)
  }

  /** The moves of the line that end at most i steps away. */
  ghost predicate LineMoveWithin(b: Snapshot, src: Pos, st: Step, i: nat, m: Move) {
    LineMove(b, src, st, m) && Within(src, st, m.to, i)
  }

  lemma OneStepFurther(b: Snapshot, src: Pos, st: Step, i: nat, m: Move)
    requires i > 0
    ensures LineMoveWithin(b, src, st, i, m) <==>
            LineMoveWithin(b, src, st, i - 1, m) || (LineMove(b, src, st, m) && m.to == Along(src, st, i))
  {
    if Within(src, st, m.to, i) {
      var k :| 0 < k <= i && m.to == Along(src, st, k);
      assert k < i ==> Within(src, st, m.to, i - 1);
    }
    if Within(src, st, m.to, i - 1) {
      var k :| 0 < k <= i - 1 && m.to == Along(src, st, k);
    }
  }

  /** Past an occupied or missing square there are no more moves. */
  lemma EndOfLine(b: Snapshot, src: Pos, st: Step, i: nat, m: Move)
    requires !Clear(b, Along(src, st, i)) && 0 < i
    ensures LineMove(b, src, st, m) ==> LineMoveWithin(b, src, st, i, m)
  {
    if LineMove(b, src, st, m) {
      var n: nat :| ReachesIn(b, src, m.to, st, n);
      assert n > i ==> Clear(b, Along(src, st, i));
      assert m.to == Along(src, st, n);
    }
  }

  /** One square of the line. */
  method AddLineMove(board: Board, src: Pos, st: Step, ghost i: nat, pos: Pos, moves: seq<Move>) returns (all: seq<Move>)
    requires board.Ok() && Valid(src) && Valid(pos) && pos == Along(src, st, i) && i > 0
    requires forall k | 0 < k < i :: Clear(board.Snap(), Along(src, st, k))
    ensures forall m :: m in all <==> m in moves || (LineMove(board.Snap(), src, st, m) && m.to == pos)
  {
    all := moves;
    assert ReachesIn(board.Snap(), src, pos, st, i);
    if !SameColor(board.Get(src), board.Get(pos)) {
      all := all + [Move(NormalMove, src, pos, board.Get(src), board.Get(pos))];
    }
  }

  /** Walks the line until it meets a piece or the edge, collecting moves. */
  method AddMovesFromLine(board: Board, src: Pos, st: Step, moves: seq<Move>) returns (all: seq<Move>)
    requires board.Ok() && Valid(src) && (st.dr != 0 || st.dc != 0)
    ensures forall m :: m in all <==> m in moves || LineMove(board.Snap(), src, st, m)
  {
    ghost var b := board.Snap();
    all := moves;
    var pos, i := Pos(src.r + st.dr, src.c + st.dc), 1;
    while Valid(pos)
      invariant 0 < i && pos == Along(src, st, i)
      invariant forall k | 0 < k < i :: Clear(b, Along(src, st, k))
      invariant forall m :: m in all <==> m in moves || LineMoveWithin(b, src, st, i - 1, m)
      decreases 8 - i
    {
      all := AddLineMove(board, src, st, i, pos, all);
      forall m ensures m in all <==> m in moves || LineMoveWithin(b, src, st, i, m) {
        OneStepFurther(b, src, st, i, m);
      }
      if !board.Get(pos).Empty? {
        break;
      }
      i := i + 1;
      pos := Pos(pos.r + st.dr, pos.c + st.dc);
    }
    forall m ensures m in all <==> m in moves || LineMove(b, src, st, m) {
      OneStepFurther(b, src, st, i, m);
      EndOfLine(b, src, st, i, m);
    }
  }

  ghost predicate SlideMove(b: Snapshot, src: Pos, kind: Kind, m: Move) {
    exists st :: SlideStep(kind, st) && LineMove(b, src, st, m)
  }

  lemma SlideLines(b: Snapshot, src: Pos, m: Move)
    ensures SlideMove(b, src, Rook, m) <==>
            || LineMove(b, src, Step(0, 1), m) || LineMove(b, src, Step(0, -1), m)
            || LineMove(b, src, Step(1, 0), m) || LineMove(b, src, Step(-1, 0), m)
    ensures SlideMove(b, src, Bishop, m) <==>
            || LineMove(b, src, Step(-1, -1), m) || LineMove(b, src, Step(-1, 1), m)
            || LineMove(b, src, Step(1, -1), m) || LineMove(b, src, Step(1, 1), m)
    ensures SlideMove(b, src, Queen, m) <==> SlideMove(b, src, Rook, m) || SlideMove(b, src, Bishop, m)
  {
    assert SlideStep(Rook, Step(0, 1)) && SlideStep(Rook, Step(0, -1)) && SlideStep(Rook, Step(1, 0)) && SlideStep(Rook, Step(-1, 0));
    assert SlideStep(Bishop, Step(-1, -1)) && SlideStep(Bishop, Step(-1, 1));
    assert SlideStep(Bishop, Step(1, -1)) && SlideStep(Bishop, Step(1, 1));
    if st :| SlideStep(Rook, st) && LineMove(b, src, st, m) {
      assert SlideStep(Queen, st);
    }
    if st :| SlideStep(Bishop, st) && LineMove(b, src, st, m) {
      assert SlideStep(Queen, st);
    }
    if st :| SlideStep(Queen, st) && LineMove(b, src, st, m) {
      assert SlideStep(Rook, st) || SlideStep(Bishop, st);
    }
  }

  method RookMoves(board: Board, src: Pos, moves: seq<Move>) returns (all: seq<Move>)
    requires board.Ok() && Valid(src)
    ensures forall m :: m in all <==> m in moves || SlideMove(board.Snap(), src, Rook, m)
  {
    all := AddMovesFromLine(board, src, Step(0, 1), moves);
    all := AddMovesFromLine(board, src, Step(0, -1), all);
    all := AddMovesFromLine(board, src, Step(1, 0), all);
    all := AddMovesFromLine(board, src, Step(-1, 0), all);
    forall m ensures m in all <==> m in moves || SlideMove(board.Snap(), src, Rook, m) {
      SlideLines(board.Snap(), src, m);
    }
  }

  method BishopMoves(board: Board, src: Pos, moves: seq<Move>) returns (all: seq<Move>)
    requires board.Ok() && Valid(src)
    ensures forall m :: m in all <==> m in moves || SlideMove(board.Snap(), src, Bishop, m)
  {
    all := AddMovesFromLine(board, src, Step(-1, -1), moves);
    all := AddMovesFromLine(board, src, Step(-1, 1), all);
    all := AddMovesFromLine(board, src, Step(1, -1), all);
    all := AddMovesFromLine(board, src, Step(1, 1), all);
    forall m ensures m in all <==> m in moves || SlideMove(board.Snap(), src, Bishop, m) {
      SlideLines(board.Snap(), src, m);
    }
  }

  /** The fixed jumps of knight and king. */
  method JumpMoves(board: Board, src: Pos, jumps: seq<(int, int)>) returns (moves: seq<Move>)
    requires board.Ok() && Valid(src)
    ensures forall m :: m in moves <==>
              && BuiltFrom(board.Snap(), src, m) && m.special.NormalMove? && (m.to.r - src.r, m.to.c - src.c) in jumps
              && !SameColor(At(board.Snap(), src), At(board.Snap(), m.to))
  {
    ghost var b := board.Snap();
    moves := [];
    for i := 0 to |jumps|
      invariant forall m :: m in moves <==>
                  && BuiltFrom(b, src, m) && m.special.NormalMove? && (m.to.r - src.r, m.to.c - src.c) in jumps[..i]
                  && !SameColor(At(b, src), At(b, m.to))
    {
      var to := Pos(src.r + jumps[i].0, src.c + jumps[i].1);
      assert jumps[..i + 1] == jumps[..i] + [jumps[i]];
      if Valid(to) && !SameColor(board.Get(src), board.Get(to)) {
        moves := moves + [Move(NormalMove, src, to, board.Get(src), board.Get(to))];
      }
    }
    assert jumps[..|jumps|] == jumps;
  }

  const KNIGHT_JUMPS: seq<(int, int)> := [(-1, -2), (-1, 2), (1, -2), (1, 2), (-2, -1), (-2, 1), (2, -1), (2, 1)]
  const KING_JUMPS: seq<(int, int)> := [(-1, -1), (-1, 0), (-1, 1), (0, -1), (0, 1), (1, -1), (1, 0), (1, 1)]

  lemma KnightJumps(dr: int, dc: int)
    ensures (dr, dc) in KNIGHT_JUMPS <==> (Abs(dr) == 1 && Abs(dc) == 2) || (Abs(dr) == 2 && Abs(dc) == 1)
  {
    var j := KNIGHT_JUMPS;
    assert j[0] == (-1, -2) && j[1] == (-1, 2) && j[2] == (1, -2) && j[3] == (1, 2);
    assert j[4] == (-2, -1) && j[5] == (-2, 1) && j[6] == (2, -1) && j[7] == (2, 1);
  }

  lemma KingJumps(dr: int, dc: int)
    ensures (dr, dc) in KING_JUMPS <==> Abs(dr) <= 1 && Abs(dc) <= 1 && !(dr == 0 && dc == 0)
  {
    var j := KING_JUMPS;
    assert j[0] == (-1, -1) && j[1] == (-1, 0) && j[2] == (-1, 1) && j[3] == (0, -1);
    assert j[4] == (0, 1) && j[5] == (1, -1) && j[6] == (1, 0) && j[7] == (1, 1);
  }

  /** Where the king of x's colour starts; the test is for the black king only. */
  function OrigPos(x: Piece): Pos { if x == Man(Black, King) then Pos(7, 4) else Pos(0, 4) }

  /** The i-th square from src towards the castling rook. */
  function TowardsRook(src: Pos, smaller: bool, i: int): Pos { Pos(src.r, if smaller then src.c - i else src.c + i) }

  /** What canCastle asks for: the squares to be empty start with the king's own. */
  ghost predicate MayCastle(b: Snapshot, src: Pos, smaller: bool)
    requires Valid(src)
  {
    var x, n := At(b, src), if smaller then 4 else 3;
    && src == OrigPos(x)
    && (At(b, TowardsRook(src, smaller, n)) == Man(Black, Rook) || !SameColor(At(b, TowardsRook(src, smaller, n)), x))
    && forall i | 0 <= i < n :: At(b, TowardsRook(src, smaller, i)).Empty?
  }

  method CanCastle(board: Board, src: Pos, smaller: bool) returns (r: bool)
    requires board.Ok() && Valid(src)
    ensures r == MayCastle(board.Snap(), src, smaller)
  {
    ghost var b := board.Snap();
    var x, n := board.Get(src), if smaller then 4 else 3;
    if src != OrigPos(x) {
      return false;
    }
    var rook := board.Get(TowardsRook(src, smaller, n));
    if rook != Man(Black, Rook) && SameColor(rook, x) {
      return false;
    }
    for i := 0 to n
      invariant forall k | 0 <= k < i :: At(b, TowardsRook(src, smaller, k)).Empty?
    {
      if !board.Get(TowardsRook(src, smaller, i)).Empty? {
        return false;
      }
    }
    return true;
  }

  /** So no king can ever castle, whatever the flag says. */
  lemma NeverCastles(b: Snapshot, src: Pos, smaller: bool)
    requires Valid(src) && At(b, src).Man?
    ensures !MayCastle(b, src, smaller)
  {
    assert TowardsRook(src, smaller, 0) == src;
  }

  ghost predicate CastlingMove(b: Snapshot, src: Pos, smaller: bool, m: Move)
    requires Valid(src)
  {
    MayCastle(b, src, smaller) && BuiltFrom(b, src, m) && m.special.Castling? && m.to == TowardsRook(src, smaller, 2)
  }

  method AddCastling(board: Board, src: Pos, moves: seq<Move>) returns (all: seq<Move>)
    requires board.Ok() && Valid(src)
    ensures forall m :: m in all <==>
              m in moves || CastlingMove(board.Snap(), src, true, m) || CastlingMove(board.Snap(), src, false, m)
  {
    all := moves;
    var smaller := CanCastle(board, src, true);
    if smaller {
      var to := TowardsRook(src, true, 2);
      all := all + [Move(Castling, src, to, board.Get(src), board.Get(to))];
    }
    var larger := CanCastle(board, src, false);
    if larger {
      var to := TowardsRook(src, false, 2);
      all := all + [Move(Castling, src, to, board.Get(src), board.Get(to))];
    }
  }

  /** getMoves of every piece but the pawns: the generator and the attack test, which share no
      code beyond the board, agree on every square, and allowing castling adds nothing. */
  method GetMoves(board: Board, src: Pos, allowCastling: bool) returns (moves: seq<Move>)
    requires board.Ok() && Valid(src) && At(board.Snap(), src).Man? && !At(board.Snap(), src).kind.Pawn?
    ensures forall m :: m in moves <==> AttackMove(board.Snap(), src, m)
  {
    ghost var b := board.Snap();
    var kind := board.Get(src).kind;
    if kind.Knight? {
      moves := JumpMoves(board, src, KNIGHT_JUMPS);
      forall m ensures m in moves <==> AttackMove(b, src, m) {
        KnightJumps(m.to.r - src.r, m.to.c - src.c);
      }
    } else if kind.King? {
      moves := JumpMoves(board, src, KING_JUMPS);
      forall m ensures m in moves <==> AttackMove(b, src, m) {
        KingJumps(m.to.r - src.r, m.to.c - src.c);
      }
      if allowCastling {
        moves := AddCastling(board, src, moves);
        NeverCastles(b, src, true);
        NeverCastles(b, src, false);
      }
    } else {
      moves := [];
      if kind.Queen? || kind.Rook? {
        moves := RookMoves(board, src, moves);
      }
      if kind.Queen? || kind.Bishop? {
        moves := BishopMoves(board, src, moves);
      }
      forall m ensures m in moves <==> AttackMove(b, src, m) {
        SliderMove(b, src, m);
        SlideLines(b, src, m);
      }
    }
  }

  lemma SliderMove(b: Snapshot, src: Pos, m: Move)
    requires Valid(src) && At(b, src).Man? && (At(b, src).kind.Queen? || At(b, src).kind.Rook? || At(b, src).kind.Bishop?)
    ensures AttackMove(b, src, m) <==> SlideMove(b, src, At(b, src).kind, m)
  {
    var kind := At(b, src).kind;
    if AttackMove(b, src, m) {
      SlidesTowards(b, kind, src, m.to);
      assert LineMove(b, src, Towards(src, m.to), m);
    }
    if st :| SlideStep(kind, st) && LineMove(b, src, st, m) {
      assert Slides(b, kind, src, m.to);
    }
  }

  // ---------------------------------------------------------------------- pawns

  /** The direction a colour's pawns move in, their home row and their last row. */
  function Ahead(c: Color): int { if c.White? then 1 else -1 }
  function HomeRow(c: Color): int { if c.White? then 1 else 6 }
  function LastRow(c: Color): int { if c.White? then 7 else 0 }

  /** The last move was a double step of the other side's pawn past the square tgt. */
  predicate PassedBy(lm: Move, c: Color, src: Pos, tgt: Pos) {
    && lm.fromType == Man(Other(c), Pawn)
    && lm.from.r == HomeRow(Other(c)) && lm.to.r == HomeRow(Other(c)) + 2 * Ahead(Other(c)) && src.r == lm.to.r
    && Abs(lm.from.c - src.c) == 1 && tgt == Pos(src.r + Ahead(c), lm.from.c)
  }

  /** The rules of pawn moves, for both colours. */
  ghost predicate PawnMove(b: Snapshot, lm: Move, src: Pos, m: Move)
    requires Valid(src) && At(b, src).Man?
  {
    var c := At(b, src).color;
    && BuiltFrom(b, src, m)
    && match m.special
       case EnPassant => PassedBy(lm, c, src, m.to)
       case Castling => false
       case _ =>
         && (m.to.r == LastRow(c) <==> !m.special.NormalMove?)
         && (|| (m.to == Pos(src.r + Ahead(c), src.c) && At(b, m.to).Empty?)
             || (m.to == Pos(src.r + 2 * Ahead(c), src.c) && src.r == HomeRow(c)
                 && At(b, m.to).Empty? && At(b, Pos(src.r + Ahead(c), src.c)).Empty?)
             || (Jumps(At(b, src), src, m.to) && At(b, m.to).Man? && At(b, m.to).color != c))
  }

  ghost predicate PlainPawnMove(b: Snapshot, c: Color, src: Pos, to: Pos, m: Move) {
    && BuiltFrom(b, src, m) && m.to == to && !m.special.EnPassant? && !m.special.Castling?
    && (to.r == LastRow(c) <==> !m.special.NormalMove?)
  }

  /** addMove: a pawn on its last row becomes a queen or a knight. */
  method AddPawnMove(board: Board, c: Color, src: Pos, to: Pos, moves: seq<Move>) returns (all: seq<Move>)
    requires board.Ok() && Valid(src) && Valid(to)
    ensures forall m :: m in all <==> m in moves || PlainPawnMove(board.Snap(), c, src, to, m)
  {
    var x, y := board.Get(src), board.Get(to);
    if to.r != LastRow(c) {
      all := moves + [Move(NormalMove, src, to, x, y)];
    } else {
      all := moves + [Move(QueenPromotion, src, to, x, y), Move(KnightPromotion, src, to, x, y)];
      assert all[|moves|] == Move(QueenPromotion, src, to, x, y) && all[|moves| + 1] == Move(KnightPromotion, src, to, x, y);
    }
  }

  ghost predicate StepMove(b: Snapshot, src: Pos, m: Move)
    requires Valid(src) && At(b, src).Man?
  {
    var to := Pos(src.r + Ahead(At(b, src).color), src.c);
    PlainPawnMove(b, At(b, src).color, src, to, m) && At(b, to).Empty?
  }

  ghost predicate DoubleMove(b: Snapshot, src: Pos, m: Move)
    requires Valid(src) && At(b, src).Man?
  {
    var c := At(b, src).color;
    && src.r == HomeRow(c) && At(b, Pos(src.r + Ahead(c), src.c)).Empty?
    && BuiltFrom(b, src, m) && m.special.NormalMove? && m.to == Pos(src.r + 2 * Ahead(c), src.c) && At(b, m.to).Empty?
  }

  ghost predicate CaptureMove(b: Snapshot, src: Pos, side: int, m: Move)
    requires Valid(src) && At(b, src).Man?
  {
    var to := Pos(src.r + Ahead(At(b, src).color), src.c + side);
    PlainPawnMove(b, At(b, src).color, src, to, m) && At(b, to).Man? && !SameColor(At(b, src), At(b, to))
  }

  ghost predicate PassingMove(b: Snapshot, lm: Move, src: Pos, m: Move)
    requires Valid(src) && At(b, src).Man?
  {
    BuiltFrom(b, src, m) && m.special.EnPassant? && PassedBy(lm, At(b, src).color, src, m.to)
  }

  /** The stages of the generator cover the rules. */
  lemma PawnMoveCases(b: Snapshot, lm: Move, src: Pos, m: Move)
    requires Valid(src) && At(b, src).Man? && At(b, src).kind.Pawn?
    ensures PawnMove(b, lm, src, m) <==>
            || StepMove(b, src, m) || DoubleMove(b, src, m)
            || CaptureMove(b, src, -1, m) || CaptureMove(b, src, 1, m) || PassingMove(b, lm, src, m)
  {
  }

  /** getMoves of both pawn classes.  The squares of a capture are read before it is known
      that they are on the board; `stray` is what such a read yields beside it. */
  method PawnMoves(board: Board, src: Pos, stray: Pos -> bool) returns (moves: seq<Move>)
    requires board.Ok() && Valid(src) && At(board.Snap(), src).Man? && At(board.Snap(), src).kind.Pawn?
    ensures forall m :: m in moves <==> PawnMove(board.Snap(), board.lastMove, src, m)
  {
    ghost var b := board.Snap();
    moves := PawnSteps(board, src);
    moves := PawnCapture(board, src, -1, moves, stray);
    moves := PawnCapture(board, src, 1, moves, stray);
    var c, lm := board.Get(src).color, board.lastMove;
    var to := Pos(src.r + Ahead(c), lm.from.c);
    if PassedBy(lm, c, src, to) && Valid(to) {
      moves := moves + [Move(EnPassant, src, to, board.Get(src), board.Get(to))];
    }
    forall m ensures m in moves <==> PawnMove(b, lm, src, m) {
      PawnMoveCases(b, lm, src, m);
    }
  }

  method PawnSteps(board: Board, src: Pos) returns (moves: seq<Move>)
    requires board.Ok() && Valid(src) && At(board.Snap(), src).Man?
    ensures forall m :: m in moves <==> StepMove(board.Snap(), src, m) || DoubleMove(board.Snap(), src, m)
  {
    var x := board.Get(src);
    var to := Pos(src.r + Ahead(x.color), src.c);
    moves := [];
    if Valid(to) && board.Get(to).Empty? {
      moves := AddPawnMove(board, x.color, src, to, moves);
    }
    assert forall m :: m in moves <==> StepMove(board.Snap(), src, m);
    if src.r == HomeRow(x.color) && board.Get(to).Empty? {
      to := Pos(src.r + 2 * Ahead(x.color), src.c);
      if board.Get(to).Empty? {
        moves := moves + [Move(NormalMove, src, to, x, board.Get(to))];
      }
    }
  }

  method PawnCapture(board: Board, src: Pos, side: int, moves: seq<Move>, stray: Pos -> bool) returns (all: seq<Move>)
    requires board.Ok() && Valid(src) && At(board.Snap(), src).Man?
    ensures forall m :: m in all <==> m in moves || CaptureMove(board.Snap(), src, side, m)
  {
    var x := board.Get(src);
    var to := Pos(src.r + Ahead(x.color), src.c + side);
    all := moves;
    var empty := IsEmpty(board, to, stray);
    if !empty && Valid(to) && !SameColor(x, board.Get(to)) {
      all := AddPawnMove(board, x.color, src, to, moves);
    }
  }

  /** Board::isEmpty, which does not ask whether the square is on the board. */
  method IsEmpty(board: Board, pos: Pos, stray: Pos -> bool) returns (r: bool)
    requires board.Ok()
    ensures r == if Valid(pos) then At(board.Snap(), pos).Empty? else stray(pos)
  {
    if Valid(pos) {
      r := board.Get(pos).Empty?;
    } else {
      r := stray(pos);
    }
  }

  // ------------------------------------------------- the rules, row by row for each colour

  ghost predicate Promotes(m: Move) { m.special.QueenPromotion? || m.special.KnightPromotion? }

  lemma WhitePawnRules(b: Snapshot, lm: Move, src: Pos, m: Move)
    requires Valid(src) && At(b, src) == Man(White, Pawn)
    ensures PawnMove(b, lm, src, m) <==>
            && BuiltFrom(b, src, m)
            && (|| ((if m.to.r == 7 then Promotes(m) else m.special.NormalMove?)
                    && (|| (m.to == Pos(src.r + 1, src.c) && At(b, m.to).Empty?)
                        || (m.to == Pos(src.r + 1, src.c - 1) && IsBlack(At(b, m.to)))
                        || (m.to == Pos(src.r + 1, src.c + 1) && IsBlack(At(b, m.to)))))
                || (m.special.NormalMove? && src.r == 1 && m.to == Pos(3, src.c) && At(b, Pos(2, src.c)).Empty? && At(b, m.to).Empty?)
                || (m.special.EnPassant? && src.r == 4 && lm.fromType == Man(Black, Pawn) && lm.from.r == 6 && lm.to.r == 4
                    && (lm.from.c == src.c - 1 || lm.from.c == src.c + 1) && m.to == Pos(5, lm.from.c)))
  {
  }

  lemma BlackPawnRules(b: Snapshot, lm: Move, src: Pos, m: Move)
    requires Valid(src) && At(b, src) == Man(Black, Pawn)
    ensures PawnMove(b, lm, src, m) <==>
            && BuiltFrom(b, src, m)
            && (|| ((if m.to.r == 0 then Promotes(m) else m.special.NormalMove?)
                    && (|| (m.to == Pos(src.r - 1, src.c) && At(b, m.to).Empty?)
                        || (m.to == Pos(src.r - 1, src.c - 1) && At(b, m.to).Man? && !IsBlack(At(b, m.to)))
                        || (m.to == Pos(src.r - 1, src.c + 1) && At(b, m.to).Man? && !IsBlack(At(b, m.to)))))
                || (m.special.NormalMove? && src.r == 6 && m.to == Pos(4, src.c) && At(b, Pos(5, src.c)).Empty? && At(b, m.to).Empty?)
                || (m.special.EnPassant? && src.r == 3 && lm.fromType == Man(White, Pawn) && lm.from.r == 1 && lm.to.r == 3
                    && (lm.from.c == src.c - 1 || lm.from.c == src.c + 1) && m.to == Pos(2, lm.from.c)))
  {
  }

  /** The squares that pawns, knights and kings attack. */
  lemma JumpRules(b: Snapshot, src: Pos, tgt: Pos, c: Color)
    ensures Attacks(b, Man(White, Pawn), src, tgt) <==> tgt == Pos(src.r + 1, src.c - 1) || tgt == Pos(src.r + 1, src.c + 1)
    ensures Attacks(b, Man(Black, Pawn), src, tgt) <==> tgt == Pos(src.r - 1, src.c - 1) || tgt == Pos(src.r - 1, src.c + 1)
    ensures Attacks(b, Man(c, Knight), src, tgt) <==> (tgt.r - src.r, tgt.c - src.c) in KNIGHT_JUMPS
    ensures Attacks(b, Man(c, King), src, tgt) <==> (tgt.r - src.r, tgt.c - src.c) in KING_JUMPS
  {
    KnightJumps(tgt.r - src.r, tgt.c - src.c);
    KingJumps(tgt.r - src.r, tgt.c - src.c);
  }
}
