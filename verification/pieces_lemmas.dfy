/** What the per-piece generators of chess_pieces.py compute, stated
    without reference to their loops: the squares along a line up to the
    first occupied one, the on-board shifts, the pawn's pushes and
    diagonals and the king's castling conditions. */
module PiecesLemmas {
  import opened Types
  import opened Moves
  import opened Pieces

  /** The move from p's square to (column, row). */
  function MoveTo(p: Piece, column: Coord, row: Coord): Move {
    Move(p.column, p.row, column, row)
  }

  /** Every on-board square of the ray at distances from..d-1 is empty. */
  predicate PathClear(b: Board, p: Piece, dc: int, dr: int, from: int, d: int) {
    forall k | from <= k < d ::
      RayOnBoard(p, dc, dr, k) ==> b[RayRow(p, dr, k)][RayColumn(p, dc, k)].None?
  }

  /** m goes to the square d steps along (dc, dr), which is on the board,
      reached over empty squares, and not held by an own piece. */
  predicate RayTarget(b: Board, p: Piece, dc: int, dr: int, from: int, d: int, m: Move) {
    from <= d < 8 && RayOnBoard(p, dc, dr, d)
    && m == MoveTo(p, RayColumn(p, dc, d), RayRow(p, dr, d))
    && PathClear(b, p, dc, dr, from, d)
    && !IsOwn(b[RayRow(p, dr, d)][RayColumn(p, dc, d)], p.owner)
  }

  lemma {:induction false} RayMovesSound(b: Board, p: Piece, dc: int, dr: int, from: int, m: Move)
    requires 1 <= from
    requires m in RayMoves(b, p, dc, dr, from)
    ensures exists d :: RayTarget(b, p, dc, dr, from, d, m)
    decreases 8 - from
  {
    if !RayOnBoard(p, dc, dr, from) {
      RayMovesSound(b, p, dc, dr, from + 1, m);
      var d :| RayTarget(b, p, dc, dr, from + 1, d, m);
      PathClearStep(b, p, dc, dr, from, d);
      assert RayTarget(b, p, dc, dr, from, d, m);
    } else {
      var c, r := RayColumn(p, dc, from), RayRow(p, dr, from);
      if !IsOwn(b[r][c], p.owner) && m == MoveTo(p, c, r) {
        assert RayTarget(b, p, dc, dr, from, from, m);
      } else {
        assert b[r][c].None? && m in RayMoves(b, p, dc, dr, from + 1);
        RayMovesSound(b, p, dc, dr, from + 1, m);
        var d :| RayTarget(b, p, dc, dr, from + 1, d, m);
        PathClearStep(b, p, dc, dr, from, d);
        assert RayTarget(b, p, dc, dr, from, d, m);
      }
    }
  }

  /** A clear path from `from + 1` extends to `from` over an empty or
      off-board square. */
  lemma PathClearStep(b: Board, p: Piece, dc: int, dr: int, from: int, d: int)
    requires PathClear(b, p, dc, dr, from + 1, d)
    requires RayOnBoard(p, dc, dr, from) ==> b[RayRow(p, dr, from)][RayColumn(p, dc, from)].None?
    ensures PathClear(b, p, dc, dr, from, d)
  {
  }

  lemma {:induction false} RayMovesComplete(b: Board, p: Piece, dc: int, dr: int, from: int, d: int, m: Move)
    requires 1 <= from
    requires RayTarget(b, p, dc, dr, from, d, m)
    ensures m in RayMoves(b, p, dc, dr, from)
    decreases 8 - from
  {
    if d != from {
      assert RayTarget(b, p, dc, dr, from + 1, d, m);
      RayMovesComplete(b, p, dc, dr, from + 1, d, m);
      if RayOnBoard(p, dc, dr, from) {
        assert b[RayRow(p, dr, from)][RayColumn(p, dc, from)].None?;
      }
    }
  }

  /** The ray from `from` holds exactly the moves to reachable squares. */
  lemma RayMovesChar(b: Board, p: Piece, dc: int, dr: int, from: int, m: Move)
    requires 1 <= from
    ensures m in RayMoves(b, p, dc, dr, from) <==> exists d :: RayTarget(b, p, dc, dr, from, d, m)
  {
    if m in RayMoves(b, p, dc, dr, from) {
      RayMovesSound(b, p, dc, dr, from, m);
    }
    if exists d :: RayTarget(b, p, dc, dr, from, d, m) {
      var d :| RayTarget(b, p, dc, dr, from, d, m);
      RayMovesComplete(b, p, dc, dr, from, d, m);
    }
  }

  /** The line generator is the union of its rays. */
  lemma {:induction false} LineMovesChar(b: Board, p: Piece, directions: seq<(int, int)>, m: Move)
    ensures m in LineMoves(b, p, directions) <==>
      exists dir :: dir in directions && m in RayMoves(b, p, dir.0, dir.1, 1)
  {
    if directions != [] {
      var n := |directions| - 1;
      var init := directions[..n];
      assert directions == init + [directions[n]];
      LineMovesChar(b, p, init, m);
    }
  }

  /** A ray depends on the piece's square and owner, not on its kind or flags. */
  lemma {:induction false} RayMovesSquareOnly(b: Board, p: Piece, q: Piece, dc: int, dr: int, from: int)
    requires 1 <= from
    requires p.column == q.column && p.row == q.row && p.owner == q.owner
    ensures RayMoves(b, p, dc, dr, from) == RayMoves(b, q, dc, dr, from)
    decreases 8 - from
  {
    if from < 8 {
      RayMovesSquareOnly(b, p, q, dc, dr, from + 1);
    }
  }

  lemma {:induction false} LineMovesSquareOnly(b: Board, p: Piece, q: Piece, directions: seq<(int, int)>)
    requires p.column == q.column && p.row == q.row && p.owner == q.owner
    ensures LineMoves(b, p, directions) == LineMoves(b, q, directions)
  {
    if directions != [] {
      var d := directions[|directions| - 1];
      LineMovesSquareOnly(b, p, q, directions[..|directions| - 1]);
      RayMovesSquareOnly(b, p, q, d.0, d.1, 1);
    }
  }

  /** Along a unit direction the squares before an on-board square are on the board too. */
  lemma UnitRayOnBoard(p: Piece, dc: int, dr: int, d: int, k: int)
    requires IsDirection((dc, dr)) && RayOnBoard(p, dc, dr, d) && 1 <= k <= d
    ensures RayOnBoard(p, dc, dr, k)
  {
    UnitTimes(d, dc); UnitTimes(d, dr); UnitTimes(k, dc); UnitTimes(k, dr);
  }

  /** A distance times a unit step is the distance, its opposite or 0. */
  lemma UnitTimes(d: int, s: int)
    requires -1 <= s <= 1
    ensures d * s == if s == 1 then d else if s == -1 then -d else 0
  {
  }

  /** Along a unit direction, once the walk has left the board the ray has
      nothing left, so stopping there with `break` gives the same moves as skipping
      with `continue`. */
  lemma {:induction false} RayPastEdge(b: Board, p: Piece, dc: int, dr: int, d: int, from: int)
    requires IsDirection((dc, dr)) && 1 <= d <= from
    requires !RayOnBoard(p, dc, dr, d)
    ensures RayMoves(b, p, dc, dr, from) == []
    decreases 8 - from
  {
    if from < 8 {
      UnitRayOffBoard(p, dc, dr, d, from);
      RayPastEdge(b, p, dc, dr, d, from + 1);
    }
  }

  /** Along a unit direction the squares past an off-board square are off the board too. */
  lemma UnitRayOffBoard(p: Piece, dc: int, dr: int, d: int, k: int)
    requires IsDirection((dc, dr)) && !RayOnBoard(p, dc, dr, d) && 1 <= d <= k
    ensures !RayOnBoard(p, dc, dr, k)
  {
    UnitTimes(d, dc); UnitTimes(d, dr); UnitTimes(k, dc); UnitTimes(k, dr);
  }

  /** Every square strictly between the piece and distance d is on the board and empty. */
  predicate Between(b: Board, p: Piece, dc: int, dr: int, d: int) {
    forall k | 1 <= k < d ::
      RayOnBoard(p, dc, dr, k) && b[RayRow(p, dr, k)][RayColumn(p, dc, k)].None?
  }

  /** The direction list of each sliding piece. */
  function SliderDirections(kind: Kind): seq<(int, int)>
    requires kind in {Bishop, Rook, Queen}
  {
    match kind
    case Bishop => BishopDirections
    case Rook => RookDirections
    case Queen => AdjacentShifts
  }

  /** The move reaches distance d along `dir` over empty squares and does
      not land on an own piece. */
  predicate SliderTarget(b: Board, p: Piece, dir: (int, int), d: int, m: Move) {
    1 <= d < 8 && RayOnBoard(p, dir.0, dir.1, d)
    && m == MoveTo(p, RayColumn(p, dir.0, d), RayRow(p, dir.1, d))
    && Between(b, p, dir.0, dir.1, d)
    && !IsOwn(b[RayRow(p, dir.1, d)][RayColumn(p, dir.0, d)], p.owner)
  }

  lemma UnitRayTarget(b: Board, p: Piece, dir: (int, int), d: int, m: Move)
    requires IsDirection(dir)
    ensures RayTarget(b, p, dir.0, dir.1, 1, d, m) <==> SliderTarget(b, p, dir, d, m)
  {
    if RayTarget(b, p, dir.0, dir.1, 1, d, m) {
      forall k | 1 <= k < d
        ensures RayOnBoard(p, dir.0, dir.1, k)
      {
        UnitRayOnBoard(p, dir.0, dir.1, d, k);
      }
    }
  }

  /** A bishop, rook or queen moves along one of its directions, any number
      of squares up to the first occupied one, never onto an own piece. */
  lemma SliderMoves(b: Board, white: Side, p: Piece, m: Move)
    requires p.kind in {Bishop, Rook, Queen}
    ensures m in PieceMoves(b, white, p) <==>
      exists dir, d :: dir in SliderDirections(p.kind) && SliderTarget(b, p, dir, d, m)
  {
    var dirs := SliderDirections(p.kind);
    assert forall dir | dir in dirs :: IsDirection(dir);
    LineMovesChar(b, p, dirs, m);
    if m in PieceMoves(b, white, p) {
      var dir :| dir in dirs && m in RayMoves(b, p, dir.0, dir.1, 1);
      RayMovesChar(b, p, dir.0, dir.1, 1, m);
      var d :| RayTarget(b, p, dir.0, dir.1, 1, d, m);
      UnitRayTarget(b, p, dir, d, m);
    }
    if exists dir, d :: dir in dirs && SliderTarget(b, p, dir, d, m) {
      var dir, d :| dir in dirs && SliderTarget(b, p, dir, d, m);
      UnitRayTarget(b, p, dir, d, m);
      RayMovesChar(b, p, dir.0, dir.1, 1, m);
    }
  }

  /** The queen's moves are exactly the union of a rook's and a bishop's
      on the same square. */
  lemma QueenIsRookAndBishop(b: Board, white: Side, p: Piece, m: Move)
    requires p.kind == Queen
    ensures m in PieceMoves(b, white, p) <==>
      m in PieceMoves(b, white, p.(kind := Rook)) || m in PieceMoves(b, white, p.(kind := Bishop))
  {
    LineMovesSquareOnly(b, p, p.(kind := Rook), RookDirections);
    LineMovesSquareOnly(b, p, p.(kind := Bishop), BishopDirections);
    LineMovesChar(b, p, AdjacentShifts, m);
    LineMovesChar(b, p, RookDirections, m);
    LineMovesChar(b, p, BishopDirections, m);
    assert forall dir :: dir in AdjacentShifts <==> dir in RookDirections || dir in BishopDirections;
  }

  // ---------------------------------------------------------------------
  // Shifts

  /** The square shifted by (dc, dr) from p is on the board and not held by an own piece. */
  predicate ShiftTarget(b: Board, p: Piece, shift: (int, int), m: Move) {
    InBounds(p.column + shift.0) && InBounds(p.row + shift.1)
    && m == MoveTo(p, p.column + shift.0, p.row + shift.1)
    && !IsOwn(b[p.row + shift.1][p.column + shift.0], p.owner)
  }

  lemma ShiftMovesChar(b: Board, p: Piece, shifts: seq<(int, int)>, m: Move)
    ensures m in ShiftMoves(b, p, shifts) <==>
      exists i :: 0 <= i < |shifts| && ShiftTarget(b, p, shifts[i], m)
  {
    if m in ShiftMoves(b, p, shifts) {
      var i := ShiftMovesSound(b, p, shifts, m);
    }
    if exists i :: 0 <= i < |shifts| && ShiftTarget(b, p, shifts[i], m) {
      var i :| 0 <= i < |shifts| && ShiftTarget(b, p, shifts[i], m);
      ShiftMovesComplete(b, p, shifts, i, m);
    }
  }

  /** A move of a shift list comes from one of its shifts. */
  lemma {:induction false} ShiftMovesSound(b: Board, p: Piece, shifts: seq<(int, int)>, m: Move) returns (i: int)
    requires m in ShiftMoves(b, p, shifts)
    ensures 0 <= i < |shifts| && ShiftTarget(b, p, shifts[i], m)
  {
    var n := |shifts| - 1;
    var init := shifts[..n];
    if m in ShiftMove(b, p, shifts[n]) {
      i := n;
    } else {
      i := ShiftMovesSound(b, p, init, m);
      assert shifts[i] == init[i];
    }
  }

  /** The target of a shift of the list is among its moves. */
  lemma {:induction false} ShiftMovesComplete(b: Board, p: Piece, shifts: seq<(int, int)>, i: int, m: Move)
    requires 0 <= i < |shifts| && ShiftTarget(b, p, shifts[i], m)
    ensures m in ShiftMoves(b, p, shifts)
  {
    var n := |shifts| - 1;
    var init := shifts[..n];
    if i < n {
      assert init[i] == shifts[i];
      ShiftMovesComplete(b, p, init, i, m);
    }
  }

  function Abs(x: int): nat { if x < 0 then -x else x }

  /** A knight jumps to any on-board square two files and one rank away,
      or one file and two ranks away, that does not hold an own piece. */
  lemma KnightMoves(b: Board, white: Side, p: Piece, m: Move)
    requires p.kind == Knight
    ensures m in PieceMoves(b, white, p) <==>
      m.startColumn == p.column && m.startRow == p.row
      && ((Abs(m.endColumn - p.column) == 2 && Abs(m.endRow - p.row) == 1)
          || (Abs(m.endColumn - p.column) == 1 && Abs(m.endRow - p.row) == 2))
      && !IsOwn(b[m.endRow][m.endColumn], p.owner)
  {
    ShiftMovesChar(b, p, KnightShifts, m);
    var shift := (m.endColumn - p.column, m.endRow - p.row);
    if m.startColumn == p.column && m.startRow == p.row
      && ((Abs(shift.0) == 2 && Abs(shift.1) == 1) || (Abs(shift.0) == 1 && Abs(shift.1) == 2))
    {
      assert shift in KnightShifts;
      var i :| 0 <= i < |KnightShifts| && KnightShifts[i] == shift;
      assert m == MoveTo(p, p.column + shift.0, p.row + shift.1);
    }
  }

  /** The king's moves: one step to any adjacent on-board square not held
      by an own piece, or a castling move to column 2 or 6 when the king
      and the corner rook may castle and the squares between are empty. */
  lemma KingMovesChar(b: Board, white: Side, p: Piece, m: Move)
    requires p.kind == King
    ensures m in PieceMoves(b, white, p) <==>
      m.startColumn == p.column && m.startRow == p.row &&
      ((Abs(m.endColumn - p.column) <= 1 && Abs(m.endRow - p.row) <= 1
        && (m.endColumn, m.endRow) != (p.column, p.row)
        && !IsOwn(b[m.endRow][m.endColumn], p.owner))
       || (m.endRow == p.row && m.endColumn == 2 && CanCastleQueenSide(b, p))
       || (m.endRow == p.row && m.endColumn == 6 && CanCastleKingSide(b, p)))
  {
    ShiftMovesChar(b, p, AdjacentShifts, m);
    var shift := (m.endColumn - p.column, m.endRow - p.row);
    if m.startColumn == p.column && m.startRow == p.row
      && Abs(shift.0) <= 1 && Abs(shift.1) <= 1 && shift != (0, 0)
    {
      assert shift in AdjacentShifts;
      var i :| 0 <= i < |AdjacentShifts| && AdjacentShifts[i] == shift;
      assert m == MoveTo(p, p.column + shift.0, p.row + shift.1);
    }
  }

  // ---------------------------------------------------------------------
  // Pawn

  /** The pawn's moves: one square ahead when it is empty; two squares
      ahead on the first move when that square is empty (the square
      jumped over is not looked at); a diagonal step ahead when the
      diagonal holds an other player's piece, or when the square beside
      holds an other player's pawn and the diagonal is empty. */
  lemma PawnMovesChar(b: Board, white: Side, p: Piece, m: Move)
    requires p.kind == Pawn && PawnCanAdvance(p, white)
    ensures var f := Forward(p, white);
      m in PieceMoves(b, white, p) <==>
      m.startColumn == p.column && m.startRow == p.row &&
      ((m.endColumn == p.column && m.endRow == p.row + f && b[m.endRow][m.endColumn].None?)
       || (m.endColumn == p.column && m.endRow == p.row + 2 * f && p.firstMove && b[m.endRow][m.endColumn].None?)
       || (Abs(m.endColumn - p.column) == 1 && m.endRow == p.row + f
           && ((b[m.endRow][m.endColumn].Some? && b[m.endRow][m.endColumn].value.owner != p.owner)
               || EnPassantBeside(b, p, f, m.endColumn))))
  {
    var f := Forward(p, white);
    var ahead := if b[p.row + f][p.column].None? then [Move(p.column, p.row, p.column, p.row + f)] else [];
    var jump := if p.firstMove && b[p.row + 2 * f][p.column].None? then [Move(p.column, p.row, p.column, p.row + 2 * f)] else [];
    assert PieceMoves(b, white, p) == PawnMoves(b, white, p);
    assert PawnMoves(b, white, p) == ahead + jump + PawnDiagonal(b, p, f, p.column + 1) + PawnDiagonal(b, p, f, p.column - 1);
    PawnStraightChar(b, p, f, m);
    PawnDiagonalChar(b, p, f, p.column + 1, m);
    PawnDiagonalChar(b, p, f, p.column - 1, m);
    assert Abs(m.endColumn - p.column) == 1 <==> m.endColumn == p.column + 1 || m.endColumn == p.column - 1;
  }

  /** A straight step goes one square ahead onto an empty square, or two
      on the first move. */
  lemma PawnStraightChar(b: Board, p: Piece, f: int, m: Move)
    requires InBounds(p.row + f) && (p.firstMove ==> InBounds(p.row + 2 * f))
    ensures m in (if b[p.row + f][p.column].None? then [Move(p.column, p.row, p.column, p.row + f)] else [])
                 + (if p.firstMove && b[p.row + 2 * f][p.column].None? then [Move(p.column, p.row, p.column, p.row + 2 * f)] else [])
      <==> m.startColumn == p.column && m.startRow == p.row && m.endColumn == p.column
           && ((m.endRow == p.row + f && b[m.endRow][m.endColumn].None?)
               || (m.endRow == p.row + 2 * f && p.firstMove && b[m.endRow][m.endColumn].None?))
  {
  }

  /** A diagonal step goes to `column` on the row ahead, onto an other
      player's piece or beside an other player's pawn. */
  lemma PawnDiagonalChar(b: Board, p: Piece, f: int, column: int, m: Move)
    requires InBounds(p.row + f)
    ensures m in PawnDiagonal(b, p, f, column) <==>
      m.startColumn == p.column && m.startRow == p.row && m.endColumn == column && m.endRow == p.row + f
      && ((b[m.endRow][m.endColumn].Some? && b[m.endRow][m.endColumn].value.owner != p.owner)
          || EnPassantBeside(b, p, f, m.endColumn))
  {
  }

  // ---------------------------------------------------------------------
  // Every generator

  lemma SliderShape(b: Board, white: Side, p: Piece, m: Move)
    requires p.kind in {Bishop, Rook, Queen}
    requires m in PieceMoves(b, white, p)
    ensures m.startColumn == p.column && m.startRow == p.row
    ensures (m.endColumn, m.endRow) != (p.column, p.row)
    ensures !IsOwn(b[m.endRow][m.endColumn], p.owner)
  {
    SliderMoves(b, white, p, m);
    var dir, d :| dir in SliderDirections(p.kind) && SliderTarget(b, p, dir, d, m);
    assert IsDirection(dir);
    StepLeaves(d, dir.0, dir.1);
  }

  /** A positive number of steps along a non-zero direction moves somewhere. */
  lemma StepLeaves(d: int, dc: int, dr: int)
    requires 1 <= d && (dc, dr) != (0, 0)
    ensures d * dc != 0 || d * dr != 0
  {
  }

  /** Every generated move starts on the piece's square, ends elsewhere and
      never on a square held by a piece of the same owner. */
  lemma MoveShape(b: Board, white: Side, p: Piece, m: Move)
    requires Generable(p, white)
    requires m in PieceMoves(b, white, p)
    ensures m.startColumn == p.column && m.startRow == p.row
    ensures (m.endColumn, m.endRow) != (p.column, p.row)
    ensures !IsOwn(b[m.endRow][m.endColumn], p.owner)
  {
    if p.kind == Pawn {
      PawnMovesChar(b, white, p, m);
    } else if p.kind == Knight {
      KnightMoves(b, white, p, m);
    } else if p.kind == King {
      KingMovesChar(b, white, p, m);
    } else {
      SliderShape(b, white, p, m);
    }
  }

  // ---------------------------------------------------------------------
  // A lone piece

  /** The board holding only p, on its own square. */
  function LoneBoard(p: Piece): (b: Board)
    ensures WellPlaced(b)
  {
    EmptyBoard()[p.row := EmptyBoard()[p.row][p.column := Some(p)]]
  }

  /** How many of the distances from..7 along (dc, dr) from (column, row) are on the board. */
  function OnBoardCount(column: int, row: int, dc: int, dr: int, from: nat): nat
    decreases 8 - from
  {
    if from >= 8 then 0
    else (if InBounds(column + from * dc) && InBounds(row + from * dr) then 1 else 0)
         + OnBoardCount(column, row, dc, dr, from + 1)
  }

  function LinesCount(column: int, row: int, directions: seq<(int, int)>): nat {
    if directions == [] then 0
    else OnBoardCount(column, row, directions[0].0, directions[0].1, 1)
         + LinesCount(column, row, directions[1..])
  }

  function ShiftsCount(column: int, row: int, shifts: seq<(int, int)>): nat {
    if shifts == [] then 0
    else (if InBounds(column + shifts[0].0) && InBounds(row + shifts[0].1) then 1 else 0)
         + ShiftsCount(column, row, shifts[1..])
  }

  /** Every on-board square of the ray from `from` on is empty. */
  predicate RayEmpty(b: Board, p: Piece, dc: int, dr: int, from: nat) {
    forall k | from <= k < 8 ::
      RayOnBoard(p, dc, dr, k) ==> b[RayRow(p, dr, k)][RayColumn(p, dc, k)].None?
  }

  lemma {:induction false} EmptyRayLength(b: Board, p: Piece, dc: int, dr: int, from: nat)
    requires 1 <= from && RayEmpty(b, p, dc, dr, from)
    ensures |RayMoves(b, p, dc, dr, from)| == OnBoardCount(p.column, p.row, dc, dr, from)
    decreases 8 - from
  {
    if from < 8 {
      EmptyRayLength(b, p, dc, dr, from + 1);
    }
  }

  lemma LoneRayEmpty(p: Piece, dir: (int, int))
    requires dir != (0, 0)
    ensures RayEmpty(LoneBoard(p), p, dir.0, dir.1, 1)
  {
    forall k | 1 <= k < 8 && RayOnBoard(p, dir.0, dir.1, k)
      ensures (RayRow(p, dir.1, k), RayColumn(p, dir.0, k)) != (p.row, p.column)
    {
      if dir.0 == 0 {
        assert k * dir.1 != 0;
      } else {
        assert k * dir.0 != 0;
      }
    }
  }

  /** With no other piece around, a line piece gets every on-board square of its directions. */
  lemma {:induction false} LoneLinesLength(p: Piece, directions: seq<(int, int)>)
    requires forall i | 0 <= i < |directions| :: directions[i] != (0, 0)
    ensures |LineMoves(LoneBoard(p), p, directions)| == LinesCount(p.column, p.row, directions)
  {
    if directions != [] {
      var n := |directions| - 1;
      assert directions[..n] + [directions[n]] == directions;
      LoneLinesLength(p, directions[..n]);
      LoneRayEmpty(p, directions[n]);
      EmptyRayLength(LoneBoard(p), p, directions[n].0, directions[n].1, 1);
      LinesCountSplit(p.column, p.row, directions[..n], directions[n]);
      assert directions[..n] + [directions[n]] == directions;
    }
  }

  lemma {:induction false} LinesCountSplit(column: int, row: int, init: seq<(int, int)>, last: (int, int))
    ensures LinesCount(column, row, init + [last])
         == LinesCount(column, row, init) + OnBoardCount(column, row, last.0, last.1, 1)
  {
    if init != [] {
      assert (init + [last])[1..] == init[1..] + [last];
      LinesCountSplit(column, row, init[1..], last);
    }
  }

  lemma {:induction false} ShiftsCountSplit(column: int, row: int, init: seq<(int, int)>, last: (int, int))
    ensures ShiftsCount(column, row, init + [last])
         == ShiftsCount(column, row, init)
            + (if InBounds(column + last.0) && InBounds(row + last.1) then 1 else 0)
  {
    if init != [] {
      assert (init + [last])[1..] == init[1..] + [last];
      ShiftsCountSplit(column, row, init[1..], last);
    }
  }

  /** With no other piece around, a shifting piece gets every on-board shifted square. */
  lemma {:induction false} LoneShiftsLength(p: Piece, shifts: seq<(int, int)>)
    requires forall i | 0 <= i < |shifts| :: shifts[i] != (0, 0)
    ensures |ShiftMoves(LoneBoard(p), p, shifts)| == ShiftsCount(p.column, p.row, shifts)
  {
    if shifts != [] {
      var n := |shifts| - 1;
      assert shifts[..n] + [shifts[n]] == shifts;
      LoneShiftsLength(p, shifts[..n]);
      ShiftsCountSplit(p.column, p.row, shifts[..n], shifts[n]);
      var c, r := p.column + shifts[n].0, p.row + shifts[n].1;
      if InBounds(c) && InBounds(r) {
        assert (r, c) != (p.row, p.column);
        assert LoneBoard(p)[r][c].None?;
      }
    }
  }

  /** With no other piece around, a bishop, rook or queen gets every
      on-board square of its directions. */
  lemma LoneSliderLength(p: Piece, white: Side)
    requires p.kind in {Bishop, Rook, Queen}
    ensures |PieceMoves(LoneBoard(p), white, p)| == LinesCount(p.column, p.row, SliderDirections(p.kind))
  {
    LoneLinesLength(p, SliderDirections(p.kind));
  }

  /** Alone on (3, 3) a bishop has 13 moves. */
  lemma LoneBishopCount(s: Side)
    ensures var p := Piece(Bishop, 3, 3, s, false, false, false);
      |PieceMoves(LoneBoard(p), s, p)| == 13
  {
    var p := Piece(Bishop, 3, 3, s, false, false, false);
    LoneSliderLength(p, s);
    assert SliderDirections(p.kind) == BishopDirections;
    BishopLinesCount();
  }

  /** Alone on (3, 3) a rook has 14 moves. */
  lemma LoneRookCount(s: Side)
    ensures var p := Piece(Rook, 3, 3, s, false, false, false);
      |PieceMoves(LoneBoard(p), s, p)| == 14
  {
    var p := Piece(Rook, 3, 3, s, false, false, false);
    LoneSliderLength(p, s);
    assert SliderDirections(p.kind) == RookDirections;
    RookLinesCount();
  }

  /** Alone on (3, 3) a queen has 27 moves. */
  lemma LoneQueenCount(s: Side)
    ensures var p := Piece(Queen, 3, 3, s, false, false, false);
      |PieceMoves(LoneBoard(p), s, p)| == 27
  {
    var p := Piece(Queen, 3, 3, s, false, false, false);
    LoneSliderLength(p, s);
    assert SliderDirections(p.kind) == AdjacentShifts;
    QueenLinesCount();
  }

  lemma BishopLinesCount()
    ensures LinesCount(3, 3, BishopDirections) == 13
  {
  }

  lemma RookLinesCount()
    ensures LinesCount(3, 3, RookDirections) == 14
  {
    var a := RookDirections;
    assert LinesCount(3, 3, a[4..]) == 0;
    assert LinesCount(3, 3, a[3..]) == 3 by { assert a[3..][1..] == a[4..]; }
    assert LinesCount(3, 3, a[2..]) == 6 by { assert a[2..][1..] == a[3..]; }
    assert LinesCount(3, 3, a[1..]) == 10 by { assert a[1..][1..] == a[2..]; }
    assert a[0..] == a;
  }

  lemma QueenLinesCount()
    ensures LinesCount(3, 3, AdjacentShifts) == 27
  {
    var a := AdjacentShifts;
    assert LinesCount(3, 3, a[8..]) == 0;
    assert LinesCount(3, 3, a[7..]) == 3 by { assert a[7..][1..] == a[8..]; }
    assert LinesCount(3, 3, a[6..]) == 6 by { assert a[6..][1..] == a[7..]; }
    assert LinesCount(3, 3, a[5..]) == 9 by { assert a[5..][1..] == a[6..]; }
    assert LinesCount(3, 3, a[4..]) == 12 by { assert a[4..][1..] == a[5..]; }
    assert LinesCount(3, 3, a[3..]) == 16 by { assert a[3..][1..] == a[4..]; }
    assert LinesCount(3, 3, a[2..]) == 19 by { assert a[2..][1..] == a[3..]; }
    assert LinesCount(3, 3, a[1..]) == 23 by { assert a[1..][1..] == a[2..]; }
    assert a[0..] == a;
  }

  /** Alone in the corner a knight has 2 moves. */
  lemma LoneCornerKnightCount(s: Side)
    ensures var p := Piece(Knight, 0, 0, s, false, false, false);
      |PieceMoves(LoneBoard(p), s, p)| == 2
  {
    LoneShiftsLength(Piece(Knight, 0, 0, s, false, false, false), KnightShifts);
    assert ShiftsCount(0, 0, KnightShifts) == 2;
  }

  // ---------------------------------------------------------------------
  // What the generators look at

  /** Two squares agree on occupancy, on kind and owner of the piece, and
      on the castling right of a piece other than a pawn; the first-move
      and en-passant flags may differ. */
  predicate SameShapeSquare(x: Option<Piece>, y: Option<Piece>) {
    x.Some? == y.Some?
    && (x.Some? ==> x.value.kind == y.value.kind && x.value.owner == y.value.owner
                    && (x.value.kind != Pawn ==> x.value.canCastle == y.value.canCastle))
  }

  predicate SameShape(a: Board, b: Board) {
    forall r, c | 0 <= r < 8 && 0 <= c < 8 :: SameShapeSquare(a[r][c], b[r][c])
  }

  lemma {:induction false} RayMovesSameShape(a: Board, b: Board, p: Piece, dc: int, dr: int, from: int)
    requires SameShape(a, b) && 1 <= from
    ensures RayMoves(a, p, dc, dr, from) == RayMoves(b, p, dc, dr, from)
    decreases 8 - from
  {
    if from < 8 {
      RayMovesSameShape(a, b, p, dc, dr, from + 1);
    }
  }

  lemma {:induction false} LineMovesSameShape(a: Board, b: Board, p: Piece, directions: seq<(int, int)>)
    requires SameShape(a, b)
    ensures LineMoves(a, p, directions) == LineMoves(b, p, directions)
  {
    if directions != [] {
      var d := directions[|directions| - 1];
      LineMovesSameShape(a, b, p, directions[..|directions| - 1]);
      RayMovesSameShape(a, b, p, d.0, d.1, 1);
    }
  }

  lemma {:induction false} ShiftMovesSameShape(a: Board, b: Board, p: Piece, shifts: seq<(int, int)>)
    requires SameShape(a, b)
    ensures ShiftMoves(a, p, shifts) == ShiftMoves(b, p, shifts)
  {
    if shifts != [] {
      ShiftMovesSameShape(a, b, p, shifts[..|shifts| - 1]);
    }
  }

  lemma PawnMovesSameShape(a: Board, b: Board, white: Side, p: Piece)
    requires SameShape(a, b) && PawnCanAdvance(p, white)
    ensures PawnMoves(a, white, p) == PawnMoves(b, white, p)
  {
    var f := Forward(p, white);
    assert SameShapeSquare(a[p.row + f][p.column], b[p.row + f][p.column]);
    if p.firstMove {
      assert SameShapeSquare(a[p.row + 2 * f][p.column], b[p.row + 2 * f][p.column]);
    }
    forall column | InBounds(column)
      ensures PawnDiagonal(a, p, f, column) == PawnDiagonal(b, p, f, column)
    {
      assert SameShapeSquare(a[p.row + f][column], b[p.row + f][column]);
      assert SameShapeSquare(a[p.row][column], b[p.row][column]);
    }
  }

  lemma KingMovesSameShape(a: Board, b: Board, p: Piece)
    requires SameShape(a, b)
    ensures KingMoves(a, p) == KingMoves(b, p)
  {
    ShiftMovesSameShape(a, b, p, AdjacentShifts);
    assert SameShapeSquare(a[p.row][0], b[p.row][0]);
    assert SameShapeSquare(a[p.row][7], b[p.row][7]);
    assert RowEmpty(a, p.row, 1, 4) == RowEmpty(b, p.row, 1, 4) by {
      assert forall column | 1 <= column < 4 :: SameShapeSquare(a[p.row][column], b[p.row][column]);
    }
    assert RowEmpty(a, p.row, 5, 7) == RowEmpty(b, p.row, 5, 7) by {
      assert forall column | 5 <= column < 7 :: SameShapeSquare(a[p.row][column], b[p.row][column]);
    }
  }

  /** The generators never read the first-move or en-passant flags of the
      pieces on the board (only those of the moving piece): boards that
      differ only in those flags give the same moves. */
  lemma PieceMovesSameShape(a: Board, b: Board, white: Side, p: Piece)
    requires SameShape(a, b) && Generable(p, white)
    ensures PieceMoves(a, white, p) == PieceMoves(b, white, p)
  {
    match p.kind
    case Pawn => PawnMovesSameShape(a, b, white, p);
    case Knight => ShiftMovesSameShape(a, b, p, KnightShifts);
    case Bishop => LineMovesSameShape(a, b, p, BishopDirections);
    case Rook => LineMovesSameShape(a, b, p, RookDirections);
    case Queen => LineMovesSameShape(a, b, p, AdjacentShifts);
    case King => KingMovesSameShape(a, b, p);
  }

  // ---------------------------------------------------------------------
  // Text

  /** `__repr__` tells pieces apart by kind and square, and by nothing else. */
  lemma PieceReprIdentifies(a: Piece, b: Piece)
    ensures PieceRepr(a) == PieceRepr(b) <==>
      a.kind == b.kind && a.column == b.column && a.row == b.row
  {
  }
}
