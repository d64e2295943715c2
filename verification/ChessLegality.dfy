/**
 * The incremental legality test of chess/one_round.cc: OneRound::canMove tries a move on a
 * scratch board and looks along one ray instead of scanning for attacks on the king.
 */
module ChessLegality {
  import opened ChessModel
  import opened ChessBoard
  import opened ChessMoves

  // ----------------------------------------------------------------- discovered checks

  /** n steps from the king along st stands a piece of the other colour that slides that way,
      with nothing in between; `to` is where the mover went. */
  ghost predicate Exposes(b: Snapshot, c: Color, to: Pos, st: Step, n: nat) {
    var q := Along(KingPos(b, c), st, n);
    && q != to && ReachesIn(b, KingPos(b, c), q, st, n)
    && At(b, q).Man? && At(b, q).color != c && SlideStep(At(b, q).kind, st)
  }

  /** The ray from king to `from`. */
  ghost predicate OnRay(king: Pos, from: Pos, st: Step) {
    exists n: nat :: n > 0 && from == Along(king, st, n)
  }

  lemma ExposesIsCheck(b: Snapshot, c: Color, to: Pos, st: Step, n: nat)
    requires Valid(KingPos(b, c)) && Exposes(b, c, to, st, n)
    ensures Checked(b, c)
  {
    var q := Along(KingPos(b, c), st, n);
    ReachesBack(b, KingPos(b, c), q, st, n);
    assert SlideStep(At(b, q).kind, Back(st));
    assert Checks(b, c, q);
  }

  /** A square that a move of another piece than a king empties. */
  ghost predicate Vacates(m: Move, p: Pos) { p == m.from || (m.special.EnPassant? && p == PassedPos(m)) }

  /** A line that a move opens passes through a square it vacates. */
  lemma LeftLine(b: Snapshot, m: Move, p: Pos, q: Pos, st: Step, n: nat) returns (k: nat)
    requires WellFormed(b, m) && !m.special.Castling?
    requires !ReachesIn(b, p, q, st, n) && ReachesIn(Applied(b, m), p, q, st, n)
    ensures 0 < k < n && Vacates(m, Along(p, st, k))
  {
    k :| 0 < k < n && !Clear(b, Along(p, st, k));
    assert Clear(Applied(b, m), Along(p, st, k));
    AppliedAt(b, m, Along(p, st, k));
  }

  /** An attack that a move uncovers is that of a slider. */
  lemma NewCheckSlides(b: Snapshot, m: Move, c: Color, q: Pos) returns (st: Step, n: nat)
    requires WellFormed(b, m) && !m.fromType.kind.King? && m.fromType.color == c
    requires HasKing(b, c) && !Checks(b, c, q) && Checks(Applied(b, m), c, q)
    ensures KingPos(Applied(b, m), c) == KingPos(b, c) && q != m.to && SlideStep(At(Applied(b, m), q).kind, st)
    ensures !ReachesIn(b, q, KingPos(b, c), st, n) && ReachesIn(Applied(b, m), q, KingPos(b, c), st, n)
  {
    var a, king := Applied(b, m), KingPos(b, c);
    AppliedAt(b, m, q);
    var x := At(b, q);
    assert !Jumps(x, q, king) && !Slides(b, x.kind, q, king);
    st, n :| SlideStep(x.kind, st) && ReachesIn(a, q, king, st, n);
  }

  /** A move of another piece than the king that uncovers an attack from q uncovers it along
      the ray through a square it vacates. */
  lemma CheckIsExposed(b: Snapshot, m: Move, c: Color, q: Pos)
    requires WellFormed(b, m) && !m.fromType.kind.King? && m.fromType.color == c
    requires HasKing(b, c) && !Checks(b, c, q) && Checks(Applied(b, m), c, q)
    ensures exists p, st, n: nat :: Vacates(m, p) && OnRay(KingPos(b, c), p, st) && Exposes(Applied(b, m), c, m.to, st, n)
  {
    var a, king := Applied(b, m), KingPos(b, c);
    var st, n := NewCheckSlides(b, m, c, q);
    var k := LeftLine(b, m, q, king, st, n);
    RayBack(q, king, st, n, k);
    CheckExposes(a, c, m.to, q, st, n);
  }

  lemma RayBack(q: Pos, king: Pos, st: Step, n: nat, k: nat)
    requires king == Along(q, st, n) && k < n
    ensures OnRay(king, Along(q, st, k), Back(st))
  {
    AlongBack(q, king, st, n, n - k);
    assert Along(q, st, k) == Along(king, Back(st), n - k);
  }

  lemma CheckExposes(a: Snapshot, c: Color, to: Pos, q: Pos, st: Step, n: nat)
    requires Checks(a, c, q) && q != to && SlideStep(At(a, q).kind, st) && ReachesIn(a, q, KingPos(a, c), st, n)
    ensures Exposes(a, c, to, Back(st), n)
  {
    ReachesBack(a, q, KingPos(a, c), st, n);
    AlongBack(q, KingPos(a, c), st, n, n);
  }

  // -------------------------------------------------------------------- piece lists

  datatype Placed = Placed(x: Piece, p: Pos)

  /** Exactly the pieces of colour c on the board. */
  ghost predicate Lists(b: Snapshot, list: seq<Placed>, c: Color) {
    forall q :: q in list <==> Valid(q.p) && q.x.Man? && q.x.color == c && At(b, q.p) == q.x
  }

  ghost predicate Coloured(list: seq<Placed>, c: Color) {
    forall i | 0 <= i < |list| :: Valid(list[i].p) && list[i].x.Man? && list[i].x.color == c
  }

  /** Every piece of colour c is in the list, was moved there last, or is a rook that castled. */
  ghost predicate Current(b: Snapshot, list: seq<Placed>, c: Color, lm: Move) {
    forall p | Valid(p) && At(b, p).Man? && At(b, p).color == c ::
      p == lm.to || Placed(At(b, p), p) in list || CastledTo(lm, p)
  }

  predicate CastledTo(lm: Move, p: Pos) { lm.special.Castling? && p == RookTo(lm) }

  /** The king of colour c is attacked by a listed piece that is still there. */
  ghost predicate ListChecks(b: Snapshot, list: seq<Placed>, c: Color) {
    exists q :: q in list && Valid(q.p) && At(b, q.p) == q.x && Attacks(b, q.x, q.p, KingPos(b, c))
  }

  /** Lists made before a side's move stay current up to that move. */
  lemma ListsStayCurrent(b: Snapshot, list: seq<Placed>, m: Move)
    requires WellFormed(b, m) && Lists(b, list, m.fromType.color)
    ensures Current(Applied(b, m), list, m.fromType.color, m)
    ensures Coloured(list, m.fromType.color)
  {
    forall p | Valid(p) && At(Applied(b, m), p).Man? && At(Applied(b, m), p).color == m.fromType.color
      ensures p == m.to || Placed(At(Applied(b, m), p), p) in list || CastledTo(m, p)
    {
      AppliedAt(b, m, p);
    }
    forall i | 0 <= i < |list| ensures Valid(list[i].p) && list[i].x.Man? && list[i].x.color == m.fromType.color {
      assert list[i] in list;
    }
  }

  // ------------------------------------------------------------------- the last move

  /** The other side's last move, if any, left one of its pieces on its target square, and a
      castling left its rook next to the king. */
  ghost predicate LastMoveOk(b: Snapshot, lm: Move, mover: Color) {
    && (Valid(lm.to) ==> At(b, lm.to).Man? && At(b, lm.to).color != mover)
    && (lm.special.Castling? ==> Valid(RookTo(lm)) && RookTo(lm) != lm.to && At(b, RookTo(lm)) == Man(Other(mover), Rook))
  }

  /** What the code asks of a rook that has just castled: whether it attacks the square the
      mover went to, rather than the mover's king. */
  ghost predicate RookHits(b: Snapshot, lm: Move, to: Pos)
  {
    && lm.special.Castling? && RookTo(lm) != to && Valid(RookTo(lm))
    && Attacks(b, At(b, RookTo(lm)), RookTo(lm), to)
  }

  /** Attackers that the list or the last move shows. */
  ghost predicate SeenCheck(b: Snapshot, c: Color, list: seq<Placed>, last: Pos) {
    exists p :: Checks(b, c, p) && (p == last || Placed(At(b, p), p) in list)
  }

  /** The rook that castled last attacks the king of colour c. */
  ghost predicate RookChecks(b: Snapshot, c: Color, lm: Move) { lm.special.Castling? && Checks(b, c, RookTo(lm)) }

  /** Something else than the rook that castled last attacks the king of colour c. */
  ghost predicate OtherChecks(b: Snapshot, c: Color, lm: Move) {
    exists p :: Checks(b, c, p) && !CastledTo(lm, p)
  }

  /** The list shows the castled rook where it stands now. */
  predicate RookListed(list: seq<Placed>, c: Color, lm: Move) { Placed(Man(Other(c), Rook), RookTo(lm)) in list }

  lemma ChecksSplit(b: Snapshot, c: Color, lm: Move)
    ensures Checked(b, c) <==> RookChecks(b, c, lm) || OtherChecks(b, c, lm)
  {
  }

  /** With a current list nothing is overlooked but a castled rook that it does not show. */
  lemma SeenIsEverything(b: Snapshot, m: Move, list: seq<Placed>, lm: Move)
    requires WellFormed(b, m) && OwnRook(b, m) && LastMoveOk(b, lm, m.fromType.color)
    requires Current(b, list, Other(m.fromType.color), lm)
    ensures var a, c := Applied(b, m), m.fromType.color;
            SeenCheck(a, c, list, lm.to) <==> OtherChecks(a, c, lm) || (RookChecks(a, c, lm) && RookListed(list, c, lm))
  {
    var a, c := Applied(b, m), m.fromType.color;
    if p :| Checks(a, c, p) && !CastledTo(lm, p) {
      AppliedAt(b, m, p);
      assert At(b, p) == At(a, p);
      assert SeenCheck(a, c, list, lm.to);
    }
    if RookChecks(a, c, lm) {
      AppliedAt(b, m, RookTo(lm));
      assert At(a, RookTo(lm)) == Man(Other(c), Rook);
    }
  }

  /** A castling move takes the mover's own rook along. */
  ghost predicate OwnRook(b: Snapshot, m: Move)
    requires WellFormed(b, m)
  {
    m.special.Castling? ==> At(b, RookFrom(m)) == Man(m.fromType.color, Rook)
  }

  /** What canMove expects when side c is about to play m on b after the last move lm. */
  ghost predicate TrialOk(b: Snapshot, lm: Move, m: Move) {
    && WellFormed(b, m) && OwnRook(b, m) && Tracked(b) && HasKing(b, m.fromType.color)
    && LastMoveOk(b, lm, m.fromType.color)
  }

  /** The flag is set when the king is attacked, except perhaps by a rook that just castled
      only: what isChecking computes. */
  ghost predicate FlagOk(b: Snapshot, lm: Move, c: Color, isChecked: bool) { OtherChecks(b, c, lm) ==> isChecked }

  /** What canMove is for: no castling out of check, and the own king is not left attacked. */
  ghost predicate Legal(b: Snapshot, m: Move, isChecked: bool)
    requires WellFormed(b, m)
  {
    !(isChecked && m.special.Castling?) && !Checked(Applied(b, m), m.fromType.color)
  }

  /** What canMove computes. */
  ghost predicate Answer(b: Snapshot, lm: Move, list: seq<Placed>, m: Move, isChecked: bool)
    requires WellFormed(b, m)
  {
    var a, c := Applied(b, m), m.fromType.color;
    && !(isChecked && m.special.Castling?) && !RookHits(a, lm, m.to)
    && if isChecked || m.fromType.kind.King? then !SeenCheck(a, c, list, lm.to)
       else !LastHits(a, c, m.to, lm.to) && Covered(a, c, m.from, m.to)
  }

  /** The castled rook is misjudged: nothing else attacks the king, and the rook attacks the
      square moved to and not the king, or the king alone and the test made does not see it. */
  ghost predicate RookMisjudged(b: Snapshot, lm: Move, list: seq<Placed>, m: Move, isChecked: bool)
    requires WellFormed(b, m)
  {
    var a, c := Applied(b, m), m.fromType.color;
    && lm.special.Castling? && !OtherChecks(a, c, lm)
    && if RookHits(a, lm, m.to) then !RookChecks(a, c, lm)
       else RookChecks(a, c, lm) && if isChecked then !RookListed(list, c, lm) else Covered(a, c, m.from, m.to)
  }

  /** A pawn taken en passant was all that stood before a slider. */
  ghost predicate PassedMissed(b: Snapshot, lm: Move, m: Move, isChecked: bool)
    requires WellFormed(b, m)
  {
    var a, c := Applied(b, m), m.fromType.color;
    && m.special.EnPassant? && !isChecked && !RookHits(a, lm, m.to) && !LastHits(a, c, m.to, lm.to)
    && Covered(a, c, m.from, m.to) && !Covered(a, c, PassedPos(m), m.to)
  }

  // ------------------------------------------------------------------------ OneRound

  class OneRound {
    const blackFirst: bool
    var maxStepPieces: seq<Placed>
    var minStepPieces: seq<Placed>

    /** init: sorts the pieces of the board into those of the side to move and the others. */
    constructor (board: Board, first: bool)
      requires board.Ok()
      ensures blackFirst == first
      ensures Lists(board.Snap(), maxStepPieces, MaxColor())
      ensures Lists(board.Snap(), minStepPieces, Other(MaxColor()))
    {
      blackFirst := first;
      var c := if first then Black else White;
      var maxs: seq<Placed>, mins: seq<Placed> := [], [];
      ghost var b := board.Snap();
      for row := 0 to 8
        invariant ListsUpTo(b, maxs, c, row, 0) && ListsUpTo(b, mins, Other(c), row, 0)
      {
        for col := 0 to 8
          invariant ListsUpTo(b, maxs, c, row, col) && ListsUpTo(b, mins, Other(c), row, col)
        {
          var p := Pos(row, col);
          var x := board.Get(p);
          if x.Empty? {
            continue;
          }
          if SameColor(Man(c, King), x) {
            maxs := maxs + [Placed(x, p)];
          } else {
            mins := mins + [Placed(x, p)];
          }
        }
      }
      maxStepPieces, minStepPieces := maxs, mins;
    }

    function MaxColor(): Color { if blackFirst then Black else White }

    /** The pieces that can attack the king of colour c. */
    function Opponents(c: Color): seq<Placed>
      reads this
    {
      if c == MaxColor() then minStepPieces else maxStepPieces
    }

    method CheckChecked(board: Board, maxSide: bool) returns (r: bool)
      requires board.Ok()
      requires Coloured(Opponents(if maxSide then MaxColor() else Other(MaxColor())), if maxSide then Other(MaxColor()) else MaxColor())
      ensures r == var c := if maxSide then MaxColor() else Other(MaxColor()); ListChecks(board.Snap(), Opponents(c), c)
    {
      ghost var c := if maxSide then MaxColor() else Other(MaxColor());
      var king := if maxSide == blackFirst then board.blackKing else board.whiteKing;
      var pieces := if maxSide then minStepPieces else maxStepPieces;
      ghost var b := board.Snap();
      for i := 0 to |pieces|
        invariant forall k | 0 <= k < i :: At(b, pieces[k].p) != pieces[k].x || !Attacks(b, pieces[k].x, pieces[k].p, KingPos(b, c))
      {
        if pieces[i].x != board.Get(pieces[i].p) {
          continue;
        }
        var hit := CanAttack(board, pieces[i].x, pieces[i].p, king);
        if hit {
          assert pieces[i] in pieces;
          return true;
        }
      }
      return false;
    }

    /** isChecked: exact, since the lists are those of the current board. */
    method IsChecked(cur: Board) returns (r: bool)
      requires cur.Ok() && Lists(cur.Snap(), minStepPieces, Other(MaxColor()))
      ensures r == Checked(cur.Snap(), MaxColor())
    {
      ghost var b := cur.Snap();
      forall i | 0 <= i < |minStepPieces|
        ensures Valid(minStepPieces[i].p) && minStepPieces[i].x.Man? && minStepPieces[i].x.color == Other(MaxColor())
      {
        assert minStepPieces[i] in minStepPieces;
      }
      r := CheckChecked(cur, true);
      if p :| Checks(b, MaxColor(), p) {
        assert Placed(At(b, p), p) in minStepPieces;
      }
      if q :| q in minStepPieces && Valid(q.p) && At(b, q.p) == q.x && Attacks(b, q.x, q.p, KingPos(b, MaxColor())) {
        assert Checks(b, MaxColor(), q.p);
      }
    }

    /** isChecking: the lists are from before the move m, so the moved piece is tested
        separately; the king is looked up on the board before the move. */
    method IsChecking(cur: Board, m: Move, next: Board) returns (r: bool)
      requires cur.Ok() && next.Ok() && WellFormed(cur.Snap(), m) && next.Snap() == Applied(cur.Snap(), m)
      requires m.fromType.color == MaxColor() && Lists(cur.Snap(), maxStepPieces, MaxColor()) && OwnRook(cur.Snap(), m)
      ensures r == OtherChecks(next.Snap(), Other(MaxColor()), m)
      ensures var b, c := next.Snap(), Other(MaxColor());
              (r == Checked(b, c)) <==> !(RookChecks(b, c, m) && !OtherChecks(b, c, m))
    {
      ghost var b, c := next.Snap(), Other(MaxColor());
      ListsStayCurrent(cur.Snap(), maxStepPieces, m);
      AppliedAt(cur.Snap(), m, m.to);
      var king := if blackFirst then cur.whiteKing else cur.blackKing;
      assert king == KingPos(b, c);
      var moved := next.Get(m.to);
      r := CanAttack(next, moved, m.to, king);
      if r {
        assert Checks(b, c, m.to);
        return;
      }
      r := CheckChecked(next, false);
      if r {
        ghost var q :| q in maxStepPieces && Valid(q.p) && At(b, q.p) == q.x && Attacks(b, q.x, q.p, KingPos(b, c));
        assert Checks(b, c, q.p);
      }
    }

    /** canMove.  The scratch board is restored.  With current lists and the flag of isChecking
        the answer is right unless the castled rook or a pawn taken en passant is misjudged. */
    method CanMove(m: Move, isChecked: bool, aux: Board) returns (ok: bool)
      requires aux.Ok() && TrialOk(aux.Snap(), aux.lastMove, m)
      requires Coloured(Opponents(m.fromType.color), Other(m.fromType.color))
      modifies aux, aux.positions
      ensures aux.Snap() == old(aux.Snap()) && aux.lastMove == old(aux.lastMove)
      ensures ok == Answer(aux.Snap(), aux.lastMove, Opponents(m.fromType.color), m, isChecked)
      ensures var b, lm, list := aux.Snap(), aux.lastMove, Opponents(m.fromType.color);
              Current(b, list, Other(m.fromType.color), lm) && FlagOk(b, lm, m.fromType.color, isChecked) ==>
                ((ok <==> Legal(b, m, isChecked)) <==>
                 !RookMisjudged(b, lm, list, m, isChecked) && !PassedMissed(b, lm, m, isChecked))
    {
      ghost var b, lm, list := aux.Snap(), aux.lastMove, Opponents(m.fromType.color);
      if Current(b, list, Other(m.fromType.color), lm) && FlagOk(b, lm, m.fromType.color, isChecked) {
        AnswerIsRight(b, lm, list, m, isChecked);
      }
      if isChecked && m.special.Castling? {
        return false;
      }
      Apply(m, aux);
      ok := Passes(m, isChecked, aux, b);
      Undo(m, aux);
      UndoRestores(b, m);
    }

    /** The tests made while the move stands on the scratch board. */
    method Passes(m: Move, isChecked: bool, aux: Board, ghost b: Snapshot) returns (ok: bool)
      requires aux.Ok() && TrialOk(b, aux.lastMove, m) && aux.Snap() == Applied(b, m)
      requires Coloured(Opponents(m.fromType.color), Other(m.fromType.color))
      requires !(isChecked && m.special.Castling?)
      ensures ok == Answer(b, aux.lastMove, Opponents(m.fromType.color), m, isChecked)
    {
      ghost var a := aux.Snap();
      var c, x, lm := m.fromType.color, m.fromType, aux.lastMove;
      var king := if IsBlack(x) then aux.blackKing else aux.whiteKing;
      var lastHit := LastPieceHits(m, aux, king, b);
      if lastHit {
        assert SeenCheck(a, c, Opponents(c), lm.to);
        return false;
      }
      var rookHit := CastledRookHits(m, aux, b);
      if rookHit {
        return false;
      }
      if isChecked || x.kind.King? {
        var hit := CheckChecked(aux, (if IsBlack(x) then true else false) == blackFirst);
        SeenSplits(b, m, Opponents(c), lm.to);
        return !hit;
      }
      AppliedAt(b, m, m.from);
      AppliedAt(b, m, m.to);
      ok := RayTest(m, aux, king);
    }
  }

  method LastPieceHits(m: Move, aux: Board, king: Pos, ghost b: Snapshot) returns (hit: bool)
    requires aux.Ok() && WellFormed(b, m) && LastMoveOk(b, aux.lastMove, m.fromType.color) && OwnRook(b, m)
    requires aux.Snap() == Applied(b, m) && king == KingPos(aux.Snap(), m.fromType.color)
    ensures hit == LastHits(aux.Snap(), m.fromType.color, m.to, aux.lastMove.to)
  {
    var last := aux.lastMove.to;
    hit := false;
    if Valid(last) && last != m.to {
      AppliedAt(b, m, last);
      if aux.Get(last).Man? {
        hit := CanAttack(aux, aux.Get(last), last, king);
      }
    }
  }

  method CastledRookHits(m: Move, aux: Board, ghost b: Snapshot) returns (hit: bool)
    requires aux.Ok() && WellFormed(b, m) && LastMoveOk(b, aux.lastMove, m.fromType.color) && OwnRook(b, m)
    requires aux.Snap() == Applied(b, m)
    ensures hit == RookHits(aux.Snap(), aux.lastMove, m.to)
  {
    hit := false;
    if aux.lastMove.special.Castling? {
      var rook := RookTo(aux.lastMove);
      if rook != m.to {
        AppliedAt(b, m, rook);
        hit := CanAttack(aux, aux.Get(rook), rook, m.to);
      }
    }
  }

  ghost predicate LastHits(a: Snapshot, c: Color, to: Pos, last: Pos) {
    last != to && Checks(a, c, last)
  }

  /** SeenCheck is the last moved piece or a listed one. */
  lemma SeenSplits(b: Snapshot, m: Move, list: seq<Placed>, last: Pos)
    requires WellFormed(b, m) && Coloured(list, Other(m.fromType.color))
    ensures var a, c := Applied(b, m), m.fromType.color;
            SeenCheck(a, c, list, last) <==> LastHits(a, c, m.to, last) || ListChecks(a, list, c)
  {
    var a, c := Applied(b, m), m.fromType.color;
    AppliedAt(b, m, m.to);
    assert !Checks(a, c, m.to);
    if p :| Checks(a, c, p) && Placed(At(a, p), p) in list {
      assert ListChecks(a, list, c);
    }
    if q :| q in list && Valid(q.p) && At(a, q.p) == q.x && Attacks(a, q.x, q.p, KingPos(a, c)) {
      assert Checks(a, c, q.p);
    }
  }

  /** canAttackLine: does a piece slide in the direction of step? */
  predicate CanAttackLine(x: Piece, st: Step) {
    match x
    case Man(_, Queen) => true
    case Man(_, Rook) => st.dr * st.dc == 0
    case Man(_, Bishop) => st.dr * st.dc == 1 || st.dr * st.dc == -1
    case _ => false
  }

  lemma CanAttackLineIsSlide(x: Piece, st: Step)
    requires st != Step(0, 0)
    ensures CanAttackLine(x, st) <==> x.Man? && SlideStep(x.kind, st)
  {
    assert st.dr == 0 || st.dr == 1 || st.dr == -1;
    assert st.dc == 0 || st.dc == 1 || st.dc == -1;
  }

  /** No slider of the other colour looks at the king along st. */
  ghost predicate Shielded(a: Snapshot, c: Color, to: Pos, st: Step) {
    forall n: nat :: !Exposes(a, c, to, st, n)
  }

  /** No slider of the other colour looks at the king along the ray through `from`. */
  ghost predicate Covered(a: Snapshot, c: Color, from: Pos, to: Pos) {
    forall st | OnRay(KingPos(a, c), from, st) && st != Step(0, 0) :: Shielded(a, c, to, st)
  }

  /** The test of the ray through the square the piece left. */
  method RayTest(m: Move, aux: Board, king: Pos) returns (ok: bool)
    requires aux.Ok() && Valid(m.from) && Valid(m.to) && m.fromType.Man?
    requires king == KingPos(aux.Snap(), m.fromType.color) && Valid(king) && king != m.from
    requires At(aux.Snap(), m.from).Empty? && SameColor(At(aux.Snap(), m.to), m.fromType)
    ensures ok == Covered(aux.Snap(), m.fromType.color, m.from, m.to)
  {
    var dr, dc := m.from.r - king.r, m.from.c - king.c;
    if dr != dc && dr + dc != 0 && dr * dc != 0 {
      assert forall st :: !OnRay(king, m.from, st);
      return true;
    }
    var st := Step(Sgn(dr), Sgn(dc));
    OnlyRay(king, m.from);
    ok := ScanRay(m, aux, king, st);
  }

  /** Steps away from the king to the first piece, passing the square left. */
  method ScanRay(m: Move, aux: Board, king: Pos, st: Step) returns (ok: bool)
    requires aux.Ok() && Valid(m.from) && Valid(m.to) && m.fromType.Man? && st != Step(0, 0)
    requires king == KingPos(aux.Snap(), m.fromType.color) && Valid(king)
    requires At(aux.Snap(), m.from).Empty? && SameColor(At(aux.Snap(), m.to), m.fromType)
    ensures ok == Shielded(aux.Snap(), m.fromType.color, m.to, st)
  {
    ghost var a, c := aux.Snap(), m.fromType.color;
    var pos, i := Pos(king.r + st.dr, king.c + st.dc), 1;
    while Valid(pos)
      invariant 0 < i && pos == Along(king, st, i)
      invariant forall k | 0 < k < i :: Clear(a, Along(king, st, k)) && Along(king, st, k) != m.to
      decreases 8 - i
    {
      if pos == m.to {
        NothingBeyond(a, c, m.to, st, i);
        return true;
      }
      if !aux.Get(pos).Empty? && pos != m.from {
        var first := aux.Get(pos);
        NothingBeyond(a, c, m.to, st, i);
        assert ReachesIn(a, king, pos, st, i);
        if SameColor(m.fromType, first) {
          return true;
        }
        CanAttackLineIsSlide(first, st);
        assert CanAttackLine(first, st) <==> Exposes(a, c, m.to, st, i);
        return !CanAttackLine(first, st);
      }
      i := i + 1;
      pos := Pos(pos.r + st.dr, pos.c + st.dc);
    }
    NothingBeyond(a, c, m.to, st, i);
    return true;
  }

  /** Past an occupied or missing square the king sees nothing. */
  lemma NothingBeyond(a: Snapshot, c: Color, to: Pos, st: Step, i: nat)
    requires 0 < i && !Clear(a, Along(KingPos(a, c), st, i))
    requires forall k | 0 < k < i :: Clear(a, Along(KingPos(a, c), st, k))
    ensures forall n: nat | n != i :: !Exposes(a, c, to, st, n)
  {
  }

  /** The king sees a square along one ray at most. */
  lemma OnlyRay(king: Pos, from: Pos)
    requires king != from
    requires from.r - king.r == from.c - king.c || from.r - king.r + from.c - king.c == 0 || from.r == king.r || from.c == king.c
    ensures forall st :: OnRay(king, from, st) <==> st == Towards(king, from)
  {
    var n := if from.r != king.r then Abs(from.r - king.r) else Abs(from.c - king.c);
    assert from == Along(king, Towards(king, from), n);
    forall st | OnRay(king, from, st) ensures st == Towards(king, from) {
      var k: nat :| k > 0 && from == Along(king, st, k);
      assert from.r - king.r == Scale(st.dr, k) && from.c - king.c == Scale(st.dc, k);
    }
  }

  ghost predicate AllCovered(a: Snapshot, c: Color, m: Move) {
    Covered(a, c, m.from, m.to) && (m.special.EnPassant? ==> Covered(a, c, PassedPos(m), m.to))
  }

  lemma RayTestExact(b: Snapshot, lm: Move, m: Move)
    requires WellFormed(b, m) && !m.fromType.kind.King?
    requires HasKing(b, m.fromType.color) && !OtherChecks(b, m.fromType.color, lm)
    ensures var a, c := Applied(b, m), m.fromType.color;
            && (OtherChecks(a, c, lm) ==> !AllCovered(a, c, m))
            && (!AllCovered(a, c, m) ==> Checked(a, c))
  {
    var a, c := Applied(b, m), m.fromType.color;
    assert KingPos(a, c) == KingPos(b, c);
    if q :| Checks(a, c, q) && !CastledTo(lm, q) {
      CheckIsExposed(b, m, c, q);
      var p, st, n: nat :| Vacates(m, p) && OnRay(KingPos(b, c), p, st) && Exposes(a, c, m.to, st, n);
      assert !Shielded(a, c, m.to, st);
    }
    if p, st, n: nat :| Vacates(m, p) && OnRay(KingPos(a, c), p, st) && Exposes(a, c, m.to, st, n) {
      ExposesIsCheck(a, c, m.to, st, n);
    }
  }

  /** A king that moves is judged right whatever castled. */
  lemma KingHits(b: Snapshot, lm: Move, m: Move)
    requires TrialOk(b, lm, m) && m.fromType.kind.King?
    ensures RookHits(Applied(b, m), lm, m.to) <==> RookChecks(Applied(b, m), m.fromType.color, lm)
  {
    if lm.special.Castling? {
      AppliedAt(b, m, RookTo(lm));
      AppliedAt(b, m, m.to);
    }
  }

  /** canMove is right exactly when neither the castled rook nor a pawn taken en passant is
      misjudged. */
  lemma AnswerIsRight(b: Snapshot, lm: Move, list: seq<Placed>, m: Move, isChecked: bool)
    requires TrialOk(b, lm, m) && Current(b, list, Other(m.fromType.color), lm)
    requires FlagOk(b, lm, m.fromType.color, isChecked)
    ensures (Answer(b, lm, list, m, isChecked) <==> Legal(b, m, isChecked)) <==>
            !RookMisjudged(b, lm, list, m, isChecked) && !PassedMissed(b, lm, m, isChecked)
  {
    var a, c := Applied(b, m), m.fromType.color;
    ChecksSplit(a, c, lm);
    if m.fromType.kind.King? {
      KingHits(b, lm, m);
    }
    if isChecked || m.fromType.kind.King? {
      SeenIsEverything(b, m, list, lm);
    } else {
      RayTestExact(b, lm, m);
      assert LastHits(a, c, m.to, lm.to) ==> OtherChecks(a, c, lm);
    }
  }

  /** The last move was a double step of a pawn and m takes that pawn. */
  ghost predicate TakesPassing(b: Snapshot, lm: Move, m: Move) {
    && WellFormed(b, lm) && lm.special.NormalMove? && lm.toType.Empty? && lm.fromType.kind.Pawn?
    && lm.to == Pos(lm.from.r + 2 * Ahead(lm.fromType.color), lm.from.c)
    && m.special.EnPassant? && m.fromType == Man(Other(lm.fromType.color), Pawn)
    && m.to == Pos(lm.from.r + Ahead(lm.fromType.color), lm.from.c)
    && WellFormed(Applied(b, lm), m)
  }

  /** In play a pawn taken en passant is never misjudged: before its double step the slider
      behind it would have been attacking the king already. */
  lemma EnPassantIsDecided(b: Snapshot, lm: Move, m: Move)
    requires TakesPassing(b, lm, m) && HasKing(Applied(b, lm), m.fromType.color)
    requires !Checked(b, m.fromType.color)
    ensures !PassedMissed(Applied(b, lm), lm, m, Checked(Applied(b, lm), m.fromType.color))
  {
    var b1, c := Applied(b, lm), m.fromType.color;
    var a := Applied(b1, m);
    if PassedMissed(b1, lm, m, Checked(b1, c)) {
      var st, n: nat :| st != Step(0, 0) && OnRay(KingPos(a, c), PassedPos(m), st) && Exposes(a, c, m.to, st, n);
      LineWasOpen(b, lm, m, st, n);
    }
  }

  lemma LineWasOpen(b: Snapshot, lm: Move, m: Move, st: Step, n: nat)
    requires TakesPassing(b, lm, m) && HasKing(Applied(b, lm), m.fromType.color)
    requires var a, c := Applied(Applied(b, lm), m), m.fromType.color;
             && OnRay(KingPos(a, c), PassedPos(m), st) && st != Step(0, 0)
             && Exposes(a, c, m.to, st, n) && Covered(a, c, m.from, m.to)
    ensures Checked(b, m.fromType.color) || Checked(Applied(b, lm), m.fromType.color)
  {
    var b1, c := Applied(b, lm), m.fromType.color;
    var a, king := Applied(b1, m), KingPos(b1, c);
    assert KingPos(a, c) == king == KingPos(b, c);
    var j: nat :| j > 0 && PassedPos(m) == Along(king, st, j);
    assert PassedPos(m) == lm.to;
    var q := Along(king, st, n);
    AppliedAt(b1, m, q);
    AppliedAt(b, lm, q);
    forall k | 0 < k < n ensures Clear(b, Along(king, st, k)) {
      PassingSquare(b, lm, m, king, st, n, j, k);
    }
    assert Exposes(b, c, m.to, st, n);
    ExposesIsCheck(b, c, m.to, st, n);
  }

  /** A square of the opened line was empty before the double step, too. */
  lemma PassingSquare(b: Snapshot, lm: Move, m: Move, king: Pos, st: Step, n: nat, j: nat, k: nat)
    requires TakesPassing(b, lm, m)
    requires var a := Applied(Applied(b, lm), m);
             king == KingPos(a, m.fromType.color) && Exposes(a, m.fromType.color, m.to, st, n) && Covered(a, m.fromType.color, m.from, m.to)
    requires st != Step(0, 0) && 0 < j && lm.to == Along(king, st, j) && 0 < k < n
    ensures Clear(b, Along(king, st, k))
  {
    var b1 := Applied(b, lm);
    var a := Applied(b1, m);
    var z := Along(king, st, k);
    assert Clear(a, z);
    AppliedAt(b1, m, z);
    AppliedAt(b, lm, z);
    assert !Shielded(a, m.fromType.color, m.to, st);
    assert z == m.from ==> OnRay(king, m.from, st);
    var mid := (k + j) / 2;
    assert z == lm.from ==> m.to == Along(king, st, mid) && 0 < mid;
    assert Clear(b, z);
  }

  /** The part of the list that the scan has reached. */
  ghost predicate ListsUpTo(b: Snapshot, list: seq<Placed>, c: Color, row: int, col: int) {
    forall q :: q in list <==>
      && Valid(q.p) && (q.p.r < row || (q.p.r == row && q.p.c < col))
      && q.x.Man? && q.x.color == c && At(b, q.p) == q.x
  }

  // -------------------------------------------------------------------- whole rounds

  /** Generated moves are what apply, undo and canMove expect. */
  lemma AttackMoveIsWellFormed(b: Snapshot, src: Pos, m: Move)
    requires Valid(src) && At(b, src).Man? && AttackMove(b, src, m)
    ensures WellFormed(b, m)
  {
    SlidesTowards(b, At(b, src).kind, src, src);
  }

  /** A recorded double step of a pawn really happened on this board. */
  ghost predicate DoubleStepOk(b: Snapshot, lm: Move) {
    lm.fromType.Man? && lm.fromType.kind.Pawn?
    && lm.from.r == HomeRow(lm.fromType.color) && lm.to.r == HomeRow(lm.fromType.color) + 2 * Ahead(lm.fromType.color)
    ==>
      && lm.to.c == lm.from.c && Valid(lm.to) && At(b, lm.to) == lm.fromType
      && At(b, Pos(lm.to.r - Ahead(lm.fromType.color), lm.to.c)).Empty?
  }

  lemma PawnMoveIsWellFormed(b: Snapshot, lm: Move, src: Pos, m: Move)
    requires Valid(src) && At(b, src).Man? && At(b, src).kind.Pawn? && DoubleStepOk(b, lm) && PawnMove(b, lm, src, m)
    ensures WellFormed(b, m)
  {
  }

  /** After any move of the first side its piece lists, made before the move, and the flag of
      isChecking meet canMove's terms for every reply; unless the move was castling, canMove
      is right about every reply. */
  lemma RepliesAreDecided(b: Snapshot, list: seq<Placed>, m: Move, reply: Move)
    requires WellFormed(b, m) && OwnRook(b, m) && Tracked(b) && Lists(b, list, m.fromType.color)
    requires HasKing(b, Other(m.fromType.color)) && m.toType != Man(Other(m.fromType.color), King)
    requires WellFormed(Applied(b, m), reply) && reply.fromType.color == Other(m.fromType.color)
    requires OwnRook(Applied(b, m), reply)
    requires reply.special.EnPassant? ==> TakesPassing(b, m, reply) && !Checked(b, reply.fromType.color)
    ensures var a := Applied(b, m); var flag := OtherChecks(a, reply.fromType.color, m);
            && TrialOk(a, m, reply) && FlagOk(a, m, reply.fromType.color, flag)
            && Current(a, list, m.fromType.color, m) && Coloured(list, m.fromType.color)
            && (!m.special.Castling? ==> (Answer(a, m, list, reply, flag) <==> Legal(a, reply, flag)))
  {
    var a, c := Applied(b, m), reply.fromType.color;
    AppliedTracked(b, m);
    ListsStayCurrent(b, list, m);
    AppliedAt(b, m, m.to);
    AppliedAt(b, m, KingPos(b, c));
    if m.special.Castling? {
      AppliedAt(b, m, RookTo(m));
    } else {
      ChecksSplit(a, c, m);
      if reply.special.EnPassant? {
        EnPassantIsDecided(b, m, reply);
      }
      AnswerIsRight(a, m, list, reply, OtherChecks(a, c, m));
    }
  }

  // ------------------------------------------------------- after the other side castled

  function EmptyBoard(): Snapshot { Snapshot(seq(64, _ => Empty), NOWHERE, NOWHERE) }

  const CASTLED: Move := Move(Castling, Pos(0, 4), Pos(0, 6), Man(White, King), Empty)

  /** White is about to castle on the king's side, against a king and a knight. */
  function ToCastle(king: Pos, knight: Pos): Snapshot
    requires Valid(king) && Valid(knight)
  {
    Put(Put(Put(Put(EmptyBoard(), Man(White, King), Pos(0, 4)), Man(White, Rook), Pos(0, 7)),
            Man(Black, King), king), Man(Black, Knight), knight)
  }

  /** The same position after White has castled. */
  function HasCastled(king: Pos, knight: Pos): Snapshot
    requires Valid(king) && Valid(knight)
  {
    Applied(ToCastle(king, knight), CASTLED)
  }

  function WhiteList(): seq<Placed> { [Placed(Man(White, King), Pos(0, 4)), Placed(Man(White, Rook), Pos(0, 7))] }

  lemma WhiteIsListed(king: Pos, knight: Pos)
    requires Valid(king) && Valid(knight) && king.r == 7 && knight.r == 4
    ensures var b := ToCastle(king, knight); Lists(b, WhiteList(), White) && WellFormed(b, CASTLED) && Tracked(b)
  {
  }

  /** The board after castling, square by square. */
  lemma HasCastledAt(king: Pos, knight: Pos)
    requires Valid(king) && Valid(knight) && king.r == 7 && knight.r == 4
    ensures Tracked(HasCastled(king, knight)) && KingPos(HasCastled(king, knight), Black) == king
    ensures forall p | Valid(p) ::
              At(HasCastled(king, knight), p) ==
              if p == Pos(0, 5) then Man(White, Rook) else if p == Pos(0, 6) then Man(White, King)
              else if p == king then Man(Black, King) else if p == knight then Man(Black, Knight) else Empty
  {
    WhiteIsListed(king, knight);
    AppliedTracked(ToCastle(king, knight), CASTLED);
    forall p | Valid(p)
      ensures At(HasCastled(king, knight), p) ==
              if p == Pos(0, 5) then Man(White, Rook) else if p == Pos(0, 6) then Man(White, King)
              else if p == king then Man(Black, King) else if p == knight then Man(Black, Knight) else Empty
    {
      AppliedAt(ToCastle(king, knight), CASTLED, p);
    }
  }

  const KNIGHT_TO_FILE: Move := Move(NormalMove, Pos(4, 7), Pos(3, 5), Man(Black, Knight), Empty)
  const KNIGHT_ASIDE: Move := Move(NormalMove, Pos(4, 0), Pos(2, 1), Man(Black, Knight), Empty)

  /** canMove answers no to a legal move: the clause about the castled rook asks for an attack
      on the square moved to. */
  lemma CastledRookForbidsLegalMove()
    ensures var b := HasCastled(Pos(7, 0), Pos(4, 7));
            TrialOk(b, CASTLED, KNIGHT_TO_FILE) && FlagOk(b, CASTLED, Black, false)
            && Legal(b, KNIGHT_TO_FILE, false) && !Answer(b, CASTLED, WhiteList(), KNIGHT_TO_FILE, false)
  {
    var b := HasCastled(Pos(7, 0), Pos(4, 7));
    HasCastledAt(Pos(7, 0), Pos(4, 7));
    OnlyRookMayCheck(b, Pos(7, 0));
    KnightToFile(b);
  }

  lemma KnightToFile(b: Snapshot)
    requires WellFormed(b, KNIGHT_TO_FILE) && KingPos(b, Black) == Pos(7, 0)
    requires forall p | Valid(p) ::
               At(b, p) == if p == Pos(0, 5) then Man(White, Rook) else if p == Pos(0, 6) then Man(White, King)
                           else if p == Pos(7, 0) then Man(Black, King) else if p == Pos(4, 7) then Man(Black, Knight) else Empty
    ensures Legal(b, KNIGHT_TO_FILE, false) && RookHits(Applied(b, KNIGHT_TO_FILE), CASTLED, KNIGHT_TO_FILE.to)
  {
    var a := Applied(b, KNIGHT_TO_FILE);
    forall p | Valid(p) ensures At(a, p) == if p == Pos(3, 5) then Man(Black, Knight) else if p == Pos(4, 7) then Empty else At(b, p) {
      AppliedAt(b, KNIGHT_TO_FILE, p);
    }
    assert At(b, Pos(0, 5)) == Man(White, Rook) && At(b, Pos(0, 6)) == Man(White, King);
    OnlyRookMayCheck(a, Pos(7, 0));
    SlidesTowards(a, Rook, Pos(0, 5), Pos(7, 0));
    assert !Checks(a, Black, Pos(0, 5));
    ChecksSplit(a, Black, CASTLED);
    assert ReachesIn(a, Pos(0, 5), Pos(3, 5), Step(1, 0), 3);
    assert Slides(a, Rook, Pos(0, 5), Pos(3, 5));
  }

  /** isChecking does not see the check a castling rook gives, and canMove, with that flag or
      the true one, accepts a move that leaves the king attacked. */
  lemma CastledRookCheckIsMissed()
    ensures var b := HasCastled(Pos(7, 5), Pos(4, 0));
            && Lists(ToCastle(Pos(7, 5), Pos(4, 0)), WhiteList(), White)
            && Checked(b, Black) && !OtherChecks(b, Black, CASTLED)
            && TrialOk(b, CASTLED, KNIGHT_ASIDE) && Current(b, WhiteList(), White, CASTLED)
            && forall flag :: !Legal(b, KNIGHT_ASIDE, flag) && Answer(b, CASTLED, WhiteList(), KNIGHT_ASIDE, flag)
  {
    var before, b := ToCastle(Pos(7, 5), Pos(4, 0)), HasCastled(Pos(7, 5), Pos(4, 0));
    WhiteIsListed(Pos(7, 5), Pos(4, 0));
    ListsStayCurrent(before, WhiteList(), CASTLED);
    RookIsOnFile();
    RookGivesCheck(b);
    KnightStepsAside(b);
  }

  lemma RookIsOnFile()
    ensures var b := HasCastled(Pos(7, 5), Pos(4, 0)); RookOnFile(b) && TrialOk(b, CASTLED, KNIGHT_ASIDE)
  {
    HasCastledAt(Pos(7, 5), Pos(4, 0));
  }

  /** White has castled against a king on the rook's file and a knight. */
  ghost predicate RookOnFile(b: Snapshot) {
    && KingPos(b, Black) == Pos(7, 5) && At(b, Pos(0, 5)) == Man(White, Rook) && At(b, Pos(0, 6)) == Man(White, King)
    && (forall p | Valid(p) && At(b, p).Man? && At(b, p).color.White? :: p == Pos(0, 5) || p == Pos(0, 6))
    && forall k: nat | 0 < k < 7 :: Clear(b, Pos(k, 5))
  }

  lemma RookGivesCheck(b: Snapshot)
    requires RookOnFile(b)
    ensures Checked(b, Black) && !OtherChecks(b, Black, CASTLED)
  {
    OnlyRookMayCheck(b, Pos(7, 5));
    assert ReachesIn(b, Pos(0, 5), Pos(7, 5), Step(1, 0), 7);
    assert Checks(b, Black, Pos(0, 5));
  }

  lemma KnightStepsAside(b: Snapshot)
    requires RookOnFile(b) && WellFormed(b, KNIGHT_ASIDE)
    ensures forall flag :: !Legal(b, KNIGHT_ASIDE, flag) && Answer(b, CASTLED, WhiteList(), KNIGHT_ASIDE, flag)
  {
    var a := Applied(b, KNIGHT_ASIDE);
    RookGivesCheck(a);
    SlidesTowards(a, Rook, Pos(0, 5), Pos(2, 1));
    assert !RookHits(a, CASTLED, Pos(2, 1));
    forall p ensures Checks(a, Black, p) ==> p == Pos(0, 5) {
      assert !Checks(a, Black, p) || CastledTo(CASTLED, p);
    }
    assert forall st :: !OnRay(Pos(7, 5), Pos(4, 0), st);
    assert Covered(a, Black, Pos(4, 0), Pos(2, 1));
  }

  /** On these boards only the castled rook can attack Black's king. */
  lemma OnlyRookMayCheck(b: Snapshot, king: Pos)
    requires KingPos(b, Black) == king && king.r == 7
    requires At(b, Pos(0, 5)) == Man(White, Rook) && At(b, Pos(0, 6)) == Man(White, King)
    requires forall p | Valid(p) && At(b, p).Man? && At(b, p).color.White? :: p == Pos(0, 5) || p == Pos(0, 6)
    ensures !OtherChecks(b, Black, CASTLED)
  {
    forall p ensures Checks(b, Black, p) ==> CastledTo(CASTLED, p) {
      assert Valid(p) && At(b, p).Man? && At(b, p).color.White? ==> p == Pos(0, 5) || p == Pos(0, 6);
    }
  }

  // ------------------------------------------------------ en passant on arbitrary boards

  const DOUBLE_STEP: Move := Move(NormalMove, Pos(6, 4), Pos(4, 4), Man(Black, Pawn), Empty)
  const TAKE_PASSING: Move := Move(EnPassant, Pos(4, 3), Pos(5, 4), Man(White, Pawn), Empty)

  /** A bishop behind the pawn that White takes. */
  function PinnedByPassed(): Snapshot {
    Put(Put(Put(Put(EmptyBoard(), Man(White, King), Pos(2, 2)), Man(White, Pawn), Pos(4, 3)),
            Man(Black, Pawn), Pos(4, 4)), Man(Black, Bishop), Pos(6, 6))
  }

  /** On a board that no legal play leads to, canMove accepts an en passant that opens a line. */
  lemma PassedPawnIsMissed()
    ensures var b := PinnedByPassed();
            && TrialOk(b, DOUBLE_STEP, TAKE_PASSING) && FlagOk(b, DOUBLE_STEP, White, false)
            && !Legal(b, TAKE_PASSING, false) && forall list :: Answer(b, DOUBLE_STEP, list, TAKE_PASSING, false)
  {
    var b := PinnedByPassed();
    assert At(b, Pos(6, 6)) == Man(Black, Bishop) && At(b, Pos(4, 4)) == Man(Black, Pawn);
    assert At(b, Pos(2, 2)) == Man(White, King) && At(b, Pos(4, 3)) == Man(White, Pawn);
    BishopIsBlocked(b);
    LineIsOpened(b);
  }

  /** Black has a pawn and, behind it on the king's diagonal, a bishop. */
  ghost predicate BishopBehind(b: Snapshot) {
    && KingPos(b, White) == Pos(2, 2) && At(b, Pos(6, 6)) == Man(Black, Bishop) && At(b, Pos(4, 4)) == Man(Black, Pawn)
    && (forall p | Valid(p) && At(b, p).Man? && At(b, p).color.Black? :: p == Pos(4, 4) || p == Pos(6, 6))
    && Clear(b, Pos(3, 3)) && Clear(b, Pos(5, 5))
  }

  lemma BishopIsBlocked(b: Snapshot)
    requires BishopBehind(b)
    ensures !Checked(b, White)
  {
    SlidesTowards(b, Bishop, Pos(6, 6), Pos(2, 2));
    assert !Clear(b, Along(Pos(6, 6), Step(-1, -1), 2));
    assert !Slides(b, Bishop, Pos(6, 6), Pos(2, 2));
    forall p ensures !Checks(b, White, p) {
      assert Valid(p) && At(b, p).Man? && At(b, p).color.Black? ==> p == Pos(4, 4) || p == Pos(6, 6);
    }
  }

  lemma LineIsOpened(b: Snapshot)
    requires BishopBehind(b) && WellFormed(b, TAKE_PASSING)
    ensures !Legal(b, TAKE_PASSING, false) && forall list :: Answer(b, DOUBLE_STEP, list, TAKE_PASSING, false)
  {
    var a := Applied(b, TAKE_PASSING);
    assert ReachesIn(a, Pos(6, 6), Pos(2, 2), Step(-1, -1), 4);
    assert Checks(a, White, Pos(6, 6));
    assert forall st :: !OnRay(Pos(2, 2), Pos(4, 3), st);
    assert Covered(a, White, Pos(4, 3), Pos(5, 4));
  }
}
