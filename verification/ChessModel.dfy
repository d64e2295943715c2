/**
 * Boards, moves and attacks of the chess solver as values: what the classes of ChessBoard
 * and ChessLegality are proved against.
 */
module ChessModel {
  // -------------------------------------------------------------------- pieces

  datatype Color = White | Black

  datatype Kind = Pawn | Rook | Knight | King | Queen | Bishop

  datatype Piece = Empty | Man(color: Color, kind: Kind)

  predicate IsBlack(x: Piece) { x.Man? && x.color.Black? }

  predicate SameColor(x: Piece, y: Piece) { x.Man? && y.Man? && x.color == y.color }

  function Other(c: Color): Color { if c.White? then Black else White }

  // -------------------------------------------------------------------- squares

  datatype Pos = Pos(r: int, c: int)

  predicate Valid(p: Pos) { 0 <= p.r < 8 && 0 <= p.c < 8 }

  const NOWHERE: Pos := Pos(-1, -1)

  /** One step along a rank, file or diagonal. */
  type Sign = d: int | -1 <= d <= 1

  datatype Step = Step(dr: Sign, dc: Sign)

  function Scale(d: Sign, k: int): int { if d == 1 then k else if d == -1 then -k else 0 }

  /** The square k steps away. */
  function Along(p: Pos, st: Step, k: int): Pos { Pos(p.r + Scale(st.dr, k), p.c + Scale(st.dc, k)) }

  function Back(st: Step): Step { Step(-st.dr, -st.dc) }

  // --------------------------------------------------------------------- boards

  type Grid = g: seq<Piece> | |g| == 64 witness seq(64, _ => Empty)

  /** The squares and the tracked king positions of a Board. */
  datatype Snapshot = Snapshot(grid: Grid, blackKing: Pos, whiteKing: Pos)

  function At(b: Snapshot, p: Pos): Piece
    requires Valid(p)
  {
    b.grid[8 * p.r + p.c]
  }

  function KingPos(b: Snapshot, c: Color): Pos { if c.Black? then b.blackKing else b.whiteKing }

  /** Board::set: kings are tracked when they are put down. */
  function Put(b: Snapshot, x: Piece, p: Pos): Snapshot
    requires Valid(p)
  {
    Snapshot(b.grid[8 * p.r + p.c := x],
             if x == Man(Black, King) then p else b.blackKing,
             if x == Man(White, King) then p else b.whiteKing)
  }

  predicate Clear(b: Snapshot, p: Pos) { Valid(p) && At(b, p).Empty? }

  /** A king on the board stands where it is tracked; so there is at most one of a colour. */
  ghost predicate Tracked(b: Snapshot) {
    forall p | Valid(p) && At(b, p).Man? && At(b, p).kind.King? :: KingPos(b, At(b, p).color) == p
  }

  ghost predicate HasKing(b: Snapshot, c: Color) {
    Valid(KingPos(b, c)) && At(b, KingPos(b, c)) == Man(c, King)
  }

  // -------------------------------------------------------------------- attacks

  /** tgt is n steps from src and the squares in between are empty. */
  ghost predicate ReachesIn(b: Snapshot, src: Pos, tgt: Pos, st: Step, n: nat) {
    && n > 0 && tgt == Along(src, st, n) && Valid(tgt)
    && forall k | 0 < k < n :: Clear(b, Along(src, st, k))
  }

  /** The directions in which a kind of piece slides. */
  predicate SlideStep(kind: Kind, st: Step) {
    match kind
    case Queen => st.dr != 0 || st.dc != 0
    case Rook => (st.dr == 0) != (st.dc == 0)
    case Bishop => st.dr != 0 && st.dc != 0
    case _ => false
  }

  ghost predicate Slides(b: Snapshot, kind: Kind, src: Pos, tgt: Pos) {
    exists st: Step, n: nat :: SlideStep(kind, st) && ReachesIn(b, src, tgt, st, n)
  }

  function Abs(x: int): int { if x < 0 then -x else x }

  /** The attacks that do not depend on other pieces. */
  predicate Jumps(x: Piece, src: Pos, tgt: Pos) {
    var dr, dc := tgt.r - src.r, tgt.c - src.c;
    match x
    case Man(_, Knight) => (Abs(dr) == 1 && Abs(dc) == 2) || (Abs(dr) == 2 && Abs(dc) == 1)
    case Man(_, King) => Abs(dr) <= 1 && Abs(dc) <= 1 && tgt != src
    case Man(White, Pawn) => dr == 1 && Abs(dc) == 1
    case Man(Black, Pawn) => dr == -1 && Abs(dc) == 1
    case _ => false
  }

  /** Piece x standing on src attacks tgt. */
  ghost predicate Attacks(b: Snapshot, x: Piece, src: Pos, tgt: Pos) {
    Jumps(x, src, tgt) || (x.Man? && Slides(b, x.kind, src, tgt))
  }

  /** A piece of the other colour on p attacks the king of colour c. */
  ghost predicate Checks(b: Snapshot, c: Color, p: Pos) {
    Valid(p) && At(b, p).Man? && At(b, p).color != c && Attacks(b, At(b, p), p, KingPos(b, c))
  }

  ghost predicate Checked(b: Snapshot, c: Color) {
    exists p :: Checks(b, c, p)
  }

  // ---------------------------------------------------------------------- moves

  datatype Special = NormalMove | QueenPromotion | KnightPromotion | EnPassant | Castling

  datatype Move = Move(special: Special, from: Pos, to: Pos, fromType: Piece, toType: Piece)

  /** The lastMove of a board nobody has moved on. */
  const NO_MOVE: Move := Move(NormalMove, NOWHERE, NOWHERE, Empty, Empty)

  function NewType(m: Move): Piece {
    match m.special
    case QueenPromotion => if IsBlack(m.fromType) then Man(Black, Queen) else Man(White, Queen)
    case KnightPromotion => if IsBlack(m.fromType) then Man(Black, Knight) else Man(White, Knight)
    case _ => m.fromType
  }

  /** The square of the pawn taken en passant. */
  function PassedPos(m: Move): Pos {
    if m.fromType == Man(Black, Pawn) then Pos(m.to.r + 1, m.to.c) else Pos(m.to.r - 1, m.to.c)
  }

  function RookFrom(m: Move): Pos { Pos(m.from.r, if m.to.c == 2 then 0 else 7) }

  function RookTo(m: Move): Pos { Pos(m.from.r, if m.to.c == 2 then 3 else 5) }

  /** A move as the generators make it: types read off the board, no own piece taken. */
  ghost predicate WellFormed(b: Snapshot, m: Move) {
    && Valid(m.from) && Valid(m.to) && m.from != m.to
    && m.fromType == At(b, m.from) && m.toType == At(b, m.to)
    && m.fromType.Man? && !SameColor(m.fromType, m.toType)
    && match m.special
       case NormalMove => true
       case QueenPromotion => m.fromType.kind.Pawn?
       case KnightPromotion => m.fromType.kind.Pawn?
       case EnPassant =>
         && m.fromType.kind.Pawn? && m.toType.Empty?
         && Valid(PassedPos(m)) && At(b, PassedPos(m)) == Man(Other(m.fromType.color), Pawn)
       case Castling =>
         && m.fromType.kind.King? && m.toType.Empty?
         && m.from.c == 4 && m.to.r == m.from.r && (m.to.c == 2 || m.to.c == 6)
         && At(b, RookTo(m)).Empty?
  }

  predicate Playable(m: Move) { Valid(m.from) && Valid(m.to) && (m.special.EnPassant? ==> Valid(PassedPos(m))) }

  /** Move::apply. */
  function Applied(b: Snapshot, m: Move): Snapshot
    requires Playable(m)
  {
    var b1 := Put(b, Empty, m.from);
    var b2 := match m.special
              case EnPassant => Put(b1, Empty, PassedPos(m))
              case Castling => Put(Put(b1, Empty, RookFrom(m)), At(b1, RookFrom(m)), RookTo(m))
              case _ => b1;
    Put(b2, NewType(m), m.to)
  }

  /** Move::undo. */
  function Undone(b: Snapshot, m: Move): Snapshot
    requires Playable(m)
  {
    var b2 := Put(Put(b, m.toType, m.to), m.fromType, m.from);
    match m.special
    case EnPassant => Put(b2, Man(if m.fromType == Man(Black, Pawn) then White else Black, Pawn), PassedPos(m))
    case Castling => Put(Put(b2, Empty, RookTo(m)), At(b2, RookTo(m)), RookFrom(m))
    case _ => b2
  }

  // ----------------------------------------------------------------- round trips

  /** What apply does to each square. */
  lemma AppliedAt(b: Snapshot, m: Move, q: Pos)
    requires WellFormed(b, m) && Valid(q)
    ensures At(Applied(b, m), q) ==
            if q == m.to then NewType(m)
            else if q == m.from then Empty
            else if m.special.EnPassant? && q == PassedPos(m) then Empty
            else if m.special.Castling? && q == RookTo(m) then At(b, RookFrom(m))
            else if m.special.Castling? && q == RookFrom(m) then Empty
            else At(b, q)
  {
  }

  /** What stands on the target square: the mover, or the man of its colour it is promoted to. */
  lemma PutsDown(b: Snapshot, m: Move)
    requires WellFormed(b, m)
    ensures var x := At(Applied(b, m), m.to); var mover := At(b, m.from);
            match m.special
            case QueenPromotion => x == Man(mover.color, Queen)
            case KnightPromotion => x == Man(mover.color, Knight)
            case _ => x == mover
  {
    AppliedAt(b, m, m.to);
  }

  /** What a capture en passant and a castling move besides. */
  lemma MovesBesides(b: Snapshot, m: Move)
    requires WellFormed(b, m)
    ensures m.special.EnPassant? && m.fromType.color.White? ==> At(Applied(b, m), Pos(m.to.r - 1, m.to.c)).Empty?
    ensures m.special.EnPassant? && m.fromType.color.Black? ==> At(Applied(b, m), Pos(m.to.r + 1, m.to.c)).Empty?
    ensures m.special.Castling? && m.to.c == 6 ==>
              At(Applied(b, m), Pos(m.from.r, 5)) == At(b, Pos(m.from.r, 7)) && At(Applied(b, m), Pos(m.from.r, 7)).Empty?
    ensures m.special.Castling? && m.to.c == 2 ==>
              At(Applied(b, m), Pos(m.from.r, 3)) == At(b, Pos(m.from.r, 0)) && At(Applied(b, m), Pos(m.from.r, 0)).Empty?
  {
    if m.special.EnPassant? {
      AppliedAt(b, m, PassedPos(m));
    } else if m.special.Castling? {
      AppliedAt(b, m, RookFrom(m));
      AppliedAt(b, m, RookTo(m));
    }
  }

  /** undo is the reverse of apply: every square and both tracked kings. */
  lemma UndoRestores(b: Snapshot, m: Move)
    requires WellFormed(b, m) && Tracked(b)
    ensures Undone(Applied(b, m), m) == b
  {
    var u := Undone(Applied(b, m), m);
    assert At(b, m.from) == m.fromType && At(b, m.to) == m.toType;
    if m.special.Castling? {
      assert At(b, RookFrom(m)).Man? && At(b, RookFrom(m)).kind.King? ==>
          KingPos(b, At(b, RookFrom(m)).color) == RookFrom(m);
    }
    assert u.grid == b.grid;
  }

  lemma AppliedTracked(b: Snapshot, m: Move)
    requires WellFormed(b, m) && Tracked(b)
    ensures Tracked(Applied(b, m))
  {
    var a := Applied(b, m);
    forall p | Valid(p) && At(a, p).Man? && At(a, p).kind.King? ensures KingPos(a, At(a, p).color) == p {
      AppliedAt(b, m, p);
      assert m.fromType.kind.King? ==> KingPos(b, m.fromType.color) == m.from;
      if m.special.Castling? {
        var x := At(b, RookFrom(m));
        assert x.Man? && x.kind.King? ==> KingPos(b, x.color) == RookFrom(m);
      }
      if p != m.to && At(a, p) == At(b, p) {
        assert KingPos(b, At(b, p).color) == p;
      }
    }
  }

  ghost predicate WellFormedLine(b: Snapshot, moves: seq<Move>)
    decreases |moves|
  {
    moves == [] || (WellFormed(b, moves[0]) && WellFormedLine(Applied(b, moves[0]), moves[1..]))
  }

  ghost function ApplyAll(b: Snapshot, moves: seq<Move>): Snapshot
    requires WellFormedLine(b, moves)
    decreases |moves|
  {
    if moves == [] then b else ApplyAll(Applied(b, moves[0]), moves[1..])
  }

  /** Undoes the moves last first. */
  function UndoAll(b: Snapshot, moves: seq<Move>): Snapshot
    requires forall i | 0 <= i < |moves| :: Playable(moves[i])
    decreases |moves|
  {
    if moves == [] then b else UndoAll(Undone(b, moves[|moves| - 1]), moves[..|moves| - 1])
  }

  lemma {:induction false} UndoFirst(b: Snapshot, moves: seq<Move>)
    requires moves != [] && forall i | 0 <= i < |moves| :: Playable(moves[i])
    ensures UndoAll(b, moves) == Undone(UndoAll(b, moves[1..]), moves[0])
    decreases |moves|
  {
    if |moves| > 1 {
      var front := moves[..|moves| - 1];
      UndoFirst(Undone(b, moves[|moves| - 1]), front);
      assert front[1..] == moves[1..][..|moves| - 2];
    } else {
      assert moves[..0] == [] && moves[1..] == [];
    }
  }

  lemma {:induction false} LineIsPlayable(b: Snapshot, moves: seq<Move>, i: nat)
    requires WellFormedLine(b, moves) && i < |moves|
    ensures Playable(moves[i])
    decreases i
  {
    if i > 0 {
      LineIsPlayable(Applied(b, moves[0]), moves[1..], i - 1);
    }
  }

  /** Applying a line of moves and undoing it in reverse restores the board. */
  lemma {:induction false} UndoAllRestores(b: Snapshot, moves: seq<Move>)
    requires WellFormedLine(b, moves) && Tracked(b)
    ensures forall i | 0 <= i < |moves| :: Playable(moves[i])
    ensures UndoAll(ApplyAll(b, moves), moves) == b
    decreases |moves|
  {
    forall i | 0 <= i < |moves| ensures Playable(moves[i]) {
      LineIsPlayable(b, moves, i);
    }
    if moves != [] {
      AppliedTracked(b, moves[0]);
      UndoAllRestores(Applied(b, moves[0]), moves[1..]);
      UndoFirst(ApplyAll(b, moves), moves);
      UndoRestores(b, moves[0]);
    }
  }

  // ------------------------------------------------------------------------ rays

  lemma AlongBack(p: Pos, q: Pos, st: Step, n: nat, k: nat)
    requires q == Along(p, st, n) && k <= n
    ensures Along(q, Back(st), k) == Along(p, st, n - k)
  {
  }

  /** A clear line is clear both ways. */
  lemma ReachesBack(b: Snapshot, p: Pos, q: Pos, st: Step, n: nat)
    requires ReachesIn(b, p, q, st, n) && Valid(p)
    ensures ReachesIn(b, q, p, Back(st), n)
  {
    AlongBack(p, q, st, n, n);
    forall k | 0 < k < n ensures Clear(b, Along(q, Back(st), k)) {
      AlongBack(p, q, st, n, k);
      assert Clear(b, Along(p, st, n - k));
    }
  }
}
