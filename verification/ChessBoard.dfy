/**
 * The mutable board (chess/board.h, chess/board.cc), the moves that change it in place
 * (chess/move.cc) and the attack tests and move generators of the pieces.
 */
module ChessBoard {
  import opened ChessModel

  class Board {
    const positions: array<Piece>
    var blackKing: Pos
    var whiteKing: Pos
    var lastMove: Move

    ghost predicate Ok() { positions.Length == 64 }

    ghost function Snap(): Snapshot
      requires Ok()
      reads this, positions
    {
      Snapshot(positions[..], blackKing, whiteKing)
    }

    constructor ()
      ensures Ok() && fresh(positions) && lastMove == NO_MOVE
      ensures Snap() == Snapshot(seq(64, _ => Empty), NOWHERE, NOWHERE)
    {
      positions := new Piece[64](_ => Empty);
      blackKing, whiteKing, lastMove := NOWHERE, NOWHERE, NO_MOVE;
    }

    /** The copy constructor. */
    constructor Clone(other: Board)
      requires other.Ok()
      ensures Ok() && fresh(positions) && Snap() == other.Snap() && lastMove == other.lastMove
    {
      positions := new Piece[64](i requires 0 <= i < 64 reads other.positions => other.positions[i]);
      blackKing, whiteKing, lastMove := other.blackKing, other.whiteKing, other.lastMove;
      new;
      assert positions[..] == other.positions[..];
    }

    function Get(p: Pos): (x: Piece)
      requires Ok() && Valid(p)
      reads this, positions
      ensures x == At(Snap(), p)
    {
      positions[8 * p.r + p.c]
    }

    method Set(x: Piece, p: Pos)
      requires Ok() && Valid(p)
      modifies this, positions
      ensures Snap() == Put(old(Snap()), x, p) && lastMove == old(lastMove)
    {
      positions[8 * p.r + p.c] := x;
      match x
      case Man(Black, King) => blackKing := p;
      case Man(White, King) => whiteKing := p;
      case _ =>
    }

    /** isChecked: does any piece of the other side attack the king? */
    method IsChecked(black: bool) returns (r: bool)
      requires Ok()
      ensures r == Checked(Snap(), if black then Black else White)
    {
      var c := if black then Black else White;
      var king := if black then blackKing else whiteKing;
      for row := 0 to 8
        invariant forall p | Valid(p) && p.r < row :: !Checks(Snap(), c, p)
      {
        for col := 0 to 8
          invariant forall p | Valid(p) && (p.r < row || (p.r == row && p.c < col)) :: !Checks(Snap(), c, p)
        {
          var p := Pos(row, col);
          var x := Get(p);
          if x.Empty? || SameColor(Man(c, King), x) {
            assert !Checks(Snap(), c, p);
            continue;
          }
          var hit := CanAttack(this, x, p, king);
          if hit {
            assert Checks(Snap(), c, p);
            return true;
          }
        }
      }
      return false;
    }

    /** makeMove(const Move&): the moved copy. */
    method MakeMove(m: Move) returns (next: Board)
      requires Ok() && WellFormed(Snap(), m)
      ensures fresh(next) && fresh(next.positions) && next.Ok()
      ensures next.Snap() == Applied(Snap(), m) && next.lastMove == m
    {
      next := new Board.Clone(this);
      Apply(m, next);
      next.lastMove := m;
    }
  }

  // ---------------------------------------------------------------- apply and undo

  method Apply(m: Move, board: Board)
    requires board.Ok() && WellFormed(board.Snap(), m)
    modifies board, board.positions
    ensures board.Snap() == Applied(old(board.Snap()), m) && board.lastMove == old(board.lastMove)
  {
    board.Set(Empty, m.from);
    match m.special {
      case QueenPromotion => board.Set(Man(if IsBlack(m.fromType) then Black else White, Queen), m.to);
      case KnightPromotion => board.Set(Man(if IsBlack(m.fromType) then Black else White, Knight), m.to);
      case EnPassant =>
        board.Set(Empty, PassedPos(m));
        board.Set(m.fromType, m.to);
      case Castling =>
        var rook := board.Get(RookFrom(m));
        board.Set(Empty, RookFrom(m));
        board.Set(rook, RookTo(m));
        board.Set(m.fromType, m.to);
      case NormalMove => board.Set(m.fromType, m.to);
    }
  }

  method Undo(m: Move, board: Board)
    requires board.Ok() && Playable(m)
    modifies board, board.positions
    ensures board.Snap() == Undone(old(board.Snap()), m) && board.lastMove == old(board.lastMove)
  {
    board.Set(m.toType, m.to);
    board.Set(m.fromType, m.from);
    if m.special.EnPassant? {
      board.Set(Man(if m.fromType == Man(Black, Pawn) then White else Black, Pawn), PassedPos(m));
    } else if m.special.Castling? {
      var rook := board.Get(RookTo(m));
      board.Set(Empty, RookTo(m));
      board.Set(rook, RookFrom(m));
    }
  }

  // ------------------------------------------------------------------ attack tests

  function Sgn(x: int): Sign { if x > 0 then 1 else if x < 0 then -1 else 0 }

  function Towards(src: Pos, tgt: Pos): Step { Step(Sgn(tgt.r - src.r), Sgn(tgt.c - src.c)) }

  ghost predicate Reaches(b: Snapshot, src: Pos, tgt: Pos, st: Step) {
    exists n: nat :: ReachesIn(b, src, tgt, st, n)
  }

  /** Only the direction towards the target can reach it. */
  lemma SlidesTowards(b: Snapshot, kind: Kind, src: Pos, tgt: Pos)
    ensures Slides(b, kind, src, tgt) <==> SlideStep(kind, Towards(src, tgt)) && Reaches(b, src, tgt, Towards(src, tgt))
    ensures Slides(b, kind, src, tgt) ==>
              src.r == tgt.r || src.c == tgt.c || tgt.r - src.r == tgt.c - src.c || tgt.r - src.r + tgt.c - src.c == 0
  {
    if st: Step, n: nat :| SlideStep(kind, st) && ReachesIn(b, src, tgt, st, n) {
      assert st == Towards(src, tgt);
    }
  }

  /** Steps from src until it meets tgt, a piece or the edge. */
  method CheckCanAttackLine(board: Board, src: Pos, tgt: Pos, st: Step) returns (r: bool)
    requires board.Ok() && Valid(src) && (st.dr != 0 || st.dc != 0)
    ensures r == Reaches(board.Snap(), src, tgt, st)
  {
    ghost var b := board.Snap();
    var pos, i := src, 0;
    while true
      invariant 0 <= i && pos == Along(src, st, i) && Valid(pos)
      invariant forall k | 0 < k <= i :: Clear(b, Along(src, st, k)) && Along(src, st, k) != tgt
      decreases 8 - i
    {
      i := i + 1;
      pos := Pos(pos.r + st.dr, pos.c + st.dc);
      assert pos == Along(src, st, i);
      if !Valid(pos) {
        break;
      }
      if pos == tgt {
        assert ReachesIn(b, src, tgt, st, i);
        return true;
      }
      if !board.Get(pos).Empty? {
        break;
      }
    }
    assert !Clear(b, Along(src, st, i));
    return false;
  }

  method QueenCanAttack(board: Board, src: Pos, tgt: Pos) returns (r: bool)
    requires board.Ok() && Valid(src)
    ensures r == Slides(board.Snap(), Queen, src, tgt)
  {
    SlidesTowards(board.Snap(), Queen, src, tgt);
    var dr, dc := tgt.r - src.r, tgt.c - src.c;
    if dr == 0 {
      r := CheckCanAttackLine(board, src, tgt, Step(0, if dc > 0 then 1 else -1));
    } else if dc == 0 {
      r := CheckCanAttackLine(board, src, tgt, Step(if dr > 0 then 1 else -1, 0));
    } else if dr == dc {
      var step: Sign := if dr > 0 then 1 else -1;
      r := CheckCanAttackLine(board, src, tgt, Step(step, step));
    } else if dr + dc == 0 {
      if dr > 0 {
        r := CheckCanAttackLine(board, src, tgt, Step(1, -1));
      } else {
        r := CheckCanAttackLine(board, src, tgt, Step(-1, 1));
      }
    } else {
      r := false;
    }
  }

  method RookCanAttack(board: Board, src: Pos, tgt: Pos) returns (r: bool)
    requires board.Ok() && Valid(src)
    ensures r == Slides(board.Snap(), Rook, src, tgt)
  {
    SlidesTowards(board.Snap(), Rook, src, tgt);
    var dr, dc := tgt.r - src.r, tgt.c - src.c;
    if dr == 0 {
      r := CheckCanAttackLine(board, src, tgt, Step(0, if dc > 0 then 1 else -1));
    } else if dc == 0 {
      r := CheckCanAttackLine(board, src, tgt, Step(if dr > 0 then 1 else -1, 0));
    } else {
      r := false;
    }
  }

  method BishopCanAttack(board: Board, src: Pos, tgt: Pos) returns (r: bool)
    requires board.Ok() && Valid(src)
    ensures r == Slides(board.Snap(), Bishop, src, tgt)
  {
    SlidesTowards(board.Snap(), Bishop, src, tgt);
    var dr, dc := tgt.r - src.r, tgt.c - src.c;
    if dr == dc {
      var step: Sign := if dr > 0 then 1 else -1;
      r := CheckCanAttackLine(board, src, tgt, Step(step, step));
    } else if dr + dc == 0 {
      if dr > 0 {
        r := CheckCanAttackLine(board, src, tgt, Step(1, -1));
      } else {
        r := CheckCanAttackLine(board, src, tgt, Step(-1, 1));
      }
    } else {
      r := false;
    }
  }

  /** The knight's test looks at the area spanned. */
  lemma KnightArea(dr: int, dc: int)
    ensures dr * dc == 2 || dr * dc == -2 <==> (Abs(dr) == 1 && Abs(dc) == 2) || (Abs(dr) == 2 && Abs(dc) == 1)
  {
    if dr * dc == 2 || dr * dc == -2 {
      assert Abs(dr) * Abs(dc) == 2;
      assert dc != 0 ==> Abs(dr) * Abs(dc) >= Abs(dr);
      assert dr != 0 ==> Abs(dr) * Abs(dc) >= Abs(dc);
    }
  }

  /** canAttack of the piece x on src. */
  method CanAttack(board: Board, x: Piece, src: Pos, tgt: Pos) returns (r: bool)
    requires board.Ok() && Valid(src) && x.Man?
    ensures r == Attacks(board.Snap(), x, src, tgt)
  {
    var dr, dc := tgt.r - src.r, tgt.c - src.c;
    match x.kind {
      case Queen => r := QueenCanAttack(board, src, tgt);
      case Rook => r := RookCanAttack(board, src, tgt);
      case Bishop => r := BishopCanAttack(board, src, tgt);
      case Knight =>
        KnightArea(dr, dc);
        r := dr * dc == 2 || dr * dc == -2;
      case King => r := tgt != src && dr <= 1 && dr >= -1 && dc <= 1 && dc >= -1;
      case Pawn =>
        if x.color.White? {
          r := tgt.r == src.r + 1 && (dc == 1 || dc == -1);
        } else {
          r := tgt.r == src.r - 1 && (dc == 1 || dc == -1);
        }
    }
    SlidesTowards(board.Snap(), x.kind, src, tgt);
  }
}
