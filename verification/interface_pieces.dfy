/** The piece classes of chess_game_interface/chess_pieces.py. Pieces,
    boards, line and shift generation, the knight, sliders and king are
    the same code as chess_pieces.py; the pawn's two-square advance also
    requires the square it passes over to be empty. */
module InterfacePieces {
  import opened Types
  import opened Moves
  import opened Pieces
  import PiecesLemmas

  /** `Pawn._get_moves` of this revision. */
  function PawnMoves(b: Board, white: Side, p: Piece): seq<Move>
    requires PawnCanAdvance(p, white)
  {
    var f := Forward(p, white);
    (if b[p.row + f][p.column].None? then [Move(p.column, p.row, p.column, p.row + f)] else [])
    + (if p.firstMove && b[p.row + f][p.column].None? && b[p.row + 2 * f][p.column].None?
       then [Move(p.column, p.row, p.column, p.row + 2 * f)] else [])
    + PawnDiagonal(b, p, f, p.column + 1)
    + PawnDiagonal(b, p, f, p.column - 1)
  }

  function PieceMoves(b: Board, white: Side, p: Piece): seq<Move>
    requires Generable(p, white)
  {
    if p.kind == Pawn then PawnMoves(b, white, p) else Pieces.PieceMoves(b, white, p)
  }

  /** `Pawn._get_moves` of this revision, appending to a result list. */
  method GetPawnMoves(b: Board, white: Side, p: Piece) returns (result: seq<Move>)
    requires PawnCanAdvance(p, white)
    ensures result == PawnMoves(b, white, p)
  {
    var f := if p.owner == white then 1 else -1;
    ghost var ahead := if b[p.row + f][p.column].None? then [Move(p.column, p.row, p.column, p.row + f)] else [];
    ghost var jump := if p.firstMove && b[p.row + f][p.column].None? && b[p.row + 2 * f][p.column].None?
      then [Move(p.column, p.row, p.column, p.row + 2 * f)] else [];
    result := [];
    if b[p.row + f][p.column].None? {
      result := result + [Move(p.column, p.row, p.column, p.row + f)];
    }
    assert result == ahead;
    if p.firstMove && b[p.row + f][p.column].None? && b[p.row + 2 * f][p.column].None? {
      result := result + [Move(p.column, p.row, p.column, p.row + 2 * f)];
    }
    assert result == ahead + jump;
    var right := GetDiagonalMoves(b, p, f, p.column + 1);
    var left := GetDiagonalMoves(b, p, f, p.column - 1);
    result := result + right + left;
  }

  method GetMoves(b: Board, white: Side, p: Piece) returns (result: seq<Move>)
    requires Generable(p, white)
    ensures result == PieceMoves(b, white, p)
  {
    if p.kind == Pawn {
      result := GetPawnMoves(b, white, p);
    } else {
      result := Pieces.GetMoves(b, white, p);
    }
  }

  /** This revision's pawn: one square ahead when empty; two squares ahead
      on the first move when both squares ahead are empty; a diagonal step
      ahead onto an other player's piece, or onto an empty diagonal beside
      an other player's pawn. A diagonal holding an own piece gives nothing. */
  lemma PawnMovesChar(b: Board, white: Side, p: Piece, m: Move)
    requires p.kind == Pawn && PawnCanAdvance(p, white)
    ensures var f := Forward(p, white);
      m in PieceMoves(b, white, p) <==>
      m.startColumn == p.column && m.startRow == p.row &&
      ((m.endColumn == p.column && m.endRow == p.row + f && b[m.endRow][m.endColumn].None?)
       || (m.endColumn == p.column && m.endRow == p.row + 2 * f && p.firstMove
           && b[p.row + f][p.column].None? && b[m.endRow][m.endColumn].None?)
       || (PiecesLemmas.Abs(m.endColumn - p.column) == 1 && m.endRow == p.row + f
           && !IsOwn(b[m.endRow][m.endColumn], p.owner)
           && (b[m.endRow][m.endColumn].Some? || EnPassantBeside(b, p, f, m.endColumn))))
  {
    var f := Forward(p, white);
    var ahead := if b[p.row + f][p.column].None? then [Move(p.column, p.row, p.column, p.row + f)] else [];
    var jump := if p.firstMove && b[p.row + f][p.column].None? && b[p.row + 2 * f][p.column].None?
      then [Move(p.column, p.row, p.column, p.row + 2 * f)] else [];
    assert PieceMoves(b, white, p) == PawnMoves(b, white, p);
    assert PawnMoves(b, white, p) == ahead + jump + PawnDiagonal(b, p, f, p.column + 1) + PawnDiagonal(b, p, f, p.column - 1);
    PawnStraightChar(b, p, f, m);
    PiecesLemmas.PawnDiagonalChar(b, p, f, p.column + 1, m);
    PiecesLemmas.PawnDiagonalChar(b, p, f, p.column - 1, m);
    assert PiecesLemmas.Abs(m.endColumn - p.column) == 1 <==> m.endColumn == p.column + 1 || m.endColumn == p.column - 1;
  }

  /** A straight step goes one square ahead onto an empty square, or two
      on the first move when both squares ahead are empty. */
  lemma PawnStraightChar(b: Board, p: Piece, f: int, m: Move)
    requires InBounds(p.row + f) && (p.firstMove ==> InBounds(p.row + 2 * f))
    ensures m in (if b[p.row + f][p.column].None? then [Move(p.column, p.row, p.column, p.row + f)] else [])
                 + (if p.firstMove && b[p.row + f][p.column].None? && b[p.row + 2 * f][p.column].None?
                    then [Move(p.column, p.row, p.column, p.row + 2 * f)] else [])
      <==> m.startColumn == p.column && m.startRow == p.row && m.endColumn == p.column
           && ((m.endRow == p.row + f && b[m.endRow][m.endColumn].None?)
               || (m.endRow == p.row + 2 * f && p.firstMove && b[p.row + f][p.column].None?
                   && b[m.endRow][m.endColumn].None?))
  {
  }

  /** The two revisions differ only in the two-square advance over an
      occupied square, which chess_pieces.py offers and this one does not. */
  lemma DiffersOnlyInTwoStep(b: Board, white: Side, p: Piece, m: Move)
    requires Generable(p, white)
    ensures m in PieceMoves(b, white, p) <==>
      m in Pieces.PieceMoves(b, white, p)
      && !(p.kind == Pawn && m.endColumn == p.column && m.endRow == p.row + 2 * Forward(p, white)
           && b[p.row + Forward(p, white)][p.column].Some?)
  {
    if p.kind == Pawn {
      PawnMovesChar(b, white, p, m);
      PiecesLemmas.PawnMovesChar(b, white, p, m);
    }
  }

  /** Line generation: a bishop, rook or queen reaches each square along
      its directions up to and including the first occupied one, unless
      that holds an own piece. */
  lemma SliderMoves(b: Board, white: Side, p: Piece, m: Move)
    requires p.kind in {Bishop, Rook, Queen}
    ensures m in PieceMoves(b, white, p) <==>
      exists dir, d :: dir in PiecesLemmas.SliderDirections(p.kind) && PiecesLemmas.SliderTarget(b, p, dir, d, m)
  {
    PiecesLemmas.SliderMoves(b, white, p, m);
  }

  /** Shift generation for the knight: the on-board L-shaped jumps not onto an own piece. */
  lemma KnightMoves(b: Board, white: Side, p: Piece, m: Move)
    requires p.kind == Knight
    ensures m in PieceMoves(b, white, p) <==>
      m.startColumn == p.column && m.startRow == p.row
      && ((PiecesLemmas.Abs(m.endColumn - p.column) == 2 && PiecesLemmas.Abs(m.endRow - p.row) == 1)
          || (PiecesLemmas.Abs(m.endColumn - p.column) == 1 && PiecesLemmas.Abs(m.endRow - p.row) == 2))
      && !IsOwn(b[m.endRow][m.endColumn], p.owner)
  {
    PiecesLemmas.KnightMoves(b, white, p, m);
  }

  /** A knight alone in the corner has exactly 2 moves. */
  lemma LoneCornerKnightCount(s: Side)
    ensures var p := Piece(Knight, 0, 0, s, false, false, false);
      |PieceMoves(PiecesLemmas.LoneBoard(p), s, p)| == 2
  {
    PiecesLemmas.LoneCornerKnightCount(s);
  }

  /** The king: adjacent steps, and castling to column 2 or 6 exactly when
      the king and the corner rook may castle and the row between is empty. */
  lemma KingMoves(b: Board, white: Side, p: Piece, m: Move)
    requires p.kind == King
    ensures m in PieceMoves(b, white, p) <==>
      m.startColumn == p.column && m.startRow == p.row &&
      ((PiecesLemmas.Abs(m.endColumn - p.column) <= 1 && PiecesLemmas.Abs(m.endRow - p.row) <= 1
        && (m.endColumn, m.endRow) != (p.column, p.row)
        && !IsOwn(b[m.endRow][m.endColumn], p.owner))
       || (m.endRow == p.row && m.endColumn == 2 && CanCastleQueenSide(b, p))
       || (m.endRow == p.row && m.endColumn == 6 && CanCastleKingSide(b, p)))
  {
    PiecesLemmas.KingMovesChar(b, white, p, m);
  }
}
