/** The candidate list of the initial position of chess_state.py: only
    the two knights and the eight pawns of the side to move can go
    anywhere, two squares each. */
module Opening {
  import opened Types
  import opened Moves
  import opened Pieces
  import PiecesLemmas
  import opened Engine
  import EngineLemmas

  /** What the opening side sees: its back rank and its pawns on rows 0
      and 1, four empty rows, and nothing of its own on rows 6 and 7. */
  predicate OpeningShape(b: Board, w: Side) {
    (forall c | 0 <= c < 8 :: b[0][c] == Some(MakePiece(BackRankKinds[c], c, 0, w, true, false)))
    && (forall c | 0 <= c < 8 :: b[1][c] == Some(MakePiece(Pawn, c, 1, w, true, false)))
    && (forall r, c | 2 <= r < 6 && 0 <= c < 8 :: b[r][c].None?)
    && (forall r, c | 6 <= r < 8 && 0 <= c < 8 :: !IsOwn(b[r][c], w))
  }

  /** The first square of a ray is off the board or holds an own piece. */
  predicate Blocked(b: Board, p: Piece, d: (int, int)) {
    RayOnBoard(p, d.0, d.1, 1) ==> IsOwn(b[RayRow(p, d.1, 1)][RayColumn(p, d.0, 1)], p.owner)
  }

  /** A ray whose first square is blocked yields nothing: an own piece
      stops the walk, and a walk that starts off the board stays off it. */
  lemma BlockedRay(b: Board, p: Piece, d: (int, int))
    requires IsDirection(d) && Blocked(b, p, d)
    ensures RayMoves(b, p, d.0, d.1, 1) == []
  {
    if !RayOnBoard(p, d.0, d.1, 1) {
      PiecesLemmas.RayPastEdge(b, p, d.0, d.1, 1, 1);
    }
  }

  lemma {:induction false} BlockedLines(b: Board, p: Piece, directions: seq<(int, int)>)
    requires forall i | 0 <= i < |directions| :: IsDirection(directions[i]) && Blocked(b, p, directions[i])
    ensures LineMoves(b, p, directions) == []
  {
    if directions != [] {
      BlockedLines(b, p, directions[..|directions| - 1]);
      BlockedRay(b, p, directions[|directions| - 1]);
    }
  }

  /** Every shift lands off the board or on an own piece. */
  predicate ShiftsBlocked(b: Board, p: Piece, shifts: seq<(int, int)>) {
    forall i | 0 <= i < |shifts| ::
      var c, r := p.column + shifts[i].0, p.row + shifts[i].1;
      InBounds(c) && InBounds(r) ==> IsOwn(b[r][c], p.owner)
  }

  lemma {:induction false} BlockedShifts(b: Board, p: Piece, shifts: seq<(int, int)>)
    requires ShiftsBlocked(b, p, shifts)
    ensures ShiftMoves(b, p, shifts) == []
  {
    if shifts != [] {
      assert ShiftsBlocked(b, p, shifts[..|shifts| - 1]);
      BlockedShifts(b, p, shifts[..|shifts| - 1]);
    }
  }

  lemma ShiftMovesStep(b: Board, p: Piece, shifts: seq<(int, int)>, k: nat)
    requires k < |shifts|
    ensures ShiftMoves(b, p, shifts[..k + 1]) == ShiftMoves(b, p, shifts[..k]) + ShiftMove(b, p, shifts[k])
  {
    assert shifts[..k + 1][..k] == shifts[..k];
  }

  /** A piece on row 0 with own pieces on all of rows 0 and 1 has no line move. */
  lemma HemmedLines(b: Board, p: Piece, directions: seq<(int, int)>)
    requires p.row == 0
    requires forall c | 0 <= c < 8 :: IsOwn(b[0][c], p.owner) && IsOwn(b[1][c], p.owner)
    requires forall i | 0 <= i < |directions| :: IsDirection(directions[i])
    ensures LineMoves(b, p, directions) == []
  {
    BlockedLines(b, p, directions);
  }

  /** The moves of a knight on (c, 0): the two squares of row 2 beside its column. */
  function KnightOpening(c: Coord): seq<Move>
    requires 1 <= c <= 6
  {
    [Move(c, 0, c - 1, 2), Move(c, 0, c + 1, 2)]
  }

  /** The moves of the pawn on (c, 1): one and two squares ahead. */
  function PawnOpening(c: Coord): seq<Move> {
    [Move(c, 1, c, 2), Move(c, 1, c, 3)]
  }

  /** The pawn moves of the first n columns, left to right. */
  function PawnPushes(n: nat): (ms: seq<Move>)
    requires n <= 8
    ensures |ms| == 2 * n
  {
    if n == 0 then [] else PawnPushes(n - 1) + PawnOpening(n - 1)
  }

  /** Shifts that yield nothing one by one yield nothing together. */
  lemma {:induction false} QuietShifts(b: Board, p: Piece, shifts: seq<(int, int)>, k: nat)
    requires k <= |shifts|
    requires forall i | 0 <= i < k :: ShiftMove(b, p, shifts[i]) == []
    ensures ShiftMoves(b, p, shifts[..k]) == []
  {
    if k > 0 {
      QuietShifts(b, p, shifts, k - 1);
      ShiftMovesStep(b, p, shifts, k - 1);
    }
  }

  /** Eight shifts of which the first five yield nothing and of the rest
      only the sixth and the eighth yield a move. */
  lemma KnightChain(b: Board, p: Piece, shifts: seq<(int, int)>, first: Move, second: Move)
    requires |shifts| == 8 && ShiftMoves(b, p, shifts[..5]) == []
    requires ShiftMove(b, p, shifts[5]) == [first] && ShiftMove(b, p, shifts[6]) == []
    requires ShiftMove(b, p, shifts[7]) == [second]
    ensures ShiftMoves(b, p, shifts) == [first, second]
  {
    ShiftMovesStep(b, p, shifts, 5);
    assert [] + [first] == [first];
    QuietStep(b, p, shifts, 6, [first]);
    LastShift(b, p, shifts, [first], second);
  }

  /** A shift that yields nothing leaves the moves so far as they are. */
  lemma QuietStep(b: Board, p: Piece, shifts: seq<(int, int)>, k: nat, done: seq<Move>)
    requires k < |shifts| && ShiftMoves(b, p, shifts[..k]) == done && ShiftMove(b, p, shifts[k]) == []
    ensures ShiftMoves(b, p, shifts[..k + 1]) == done
  {
    ShiftMovesStep(b, p, shifts, k);
    assert done + [] == done;
  }

  /** The last shift adds its one move after the others. */
  lemma LastShift(b: Board, p: Piece, shifts: seq<(int, int)>, done: seq<Move>, last: Move)
    requires |shifts| > 0 && ShiftMoves(b, p, shifts[..|shifts| - 1]) == done
    requires ShiftMove(b, p, shifts[|shifts| - 1]) == [last]
    ensures ShiftMoves(b, p, shifts) == done + [last]
  {
  }

  /** A knight of the back rank reaches the two squares of row 2 beside it. */
  lemma KnightSquare(b: Board, p: Piece, c: Coord)
    requires p.row == 0 && p.column == c && (c == 1 || c == 6)
    requires forall x | 0 <= x < 8 :: IsOwn(b[1][x], p.owner) && b[2][x].None?
    ensures ShiftMoves(b, p, KnightShifts) == KnightOpening(c)
  {
    var shifts := KnightShifts;
    assert b[2][c - 1].None? && b[2][c + 1].None?;
    assert IsOwn(b[1][3], p.owner) && IsOwn(b[1][4], p.owner);
    assert ShiftMove(b, p, shifts[0]) == [] && ShiftMove(b, p, shifts[1]) == [];
    assert ShiftMove(b, p, shifts[2]) == [] && ShiftMove(b, p, shifts[3]) == [];
    assert ShiftMove(b, p, shifts[4]) == [] && ShiftMove(b, p, shifts[6]) == [];
    assert ShiftMove(b, p, shifts[5]) == [Move(c, 0, c - 1, 2)];
    assert ShiftMove(b, p, shifts[7]) == [Move(c, 0, c + 1, 2)];
    QuietShifts(b, p, shifts, 5);
    KnightChain(b, p, shifts, Move(c, 0, c - 1, 2), Move(c, 0, c + 1, 2));
  }

  /** The king of the back rank has no shift and, with its neighbours in
      place, no castling move. */
  lemma KingSquare(b: Board, w: Side)
    requires OpeningShape(b, w)
    ensures KingMoves(b, b[0][4].value) == []
  {
    var p := b[0][4].value;
    assert p.row == 0 && p.column == 4 && p.owner == w;
    assert forall cc | 0 <= cc < 8 :: IsOwn(b[0][cc], w) && IsOwn(b[1][cc], w);
    assert ShiftsBlocked(b, p, AdjacentShifts);
    BlockedShifts(b, p, AdjacentShifts);
    assert b[0][1].Some? && b[0][5].Some?;
  }

  /** The opening side's pawns all stand on row 1, two free rows ahead. */
  lemma OpeningAdvance(b: Board, w: Side)
    requires OpeningShape(b, w)
    ensures PawnsCanAdvance(b, w, w)
  {
    forall r, c | 0 <= r < 8 && 0 <= c < 8 && IsOwn(b[r][c], w) && b[r][c].value.kind == Pawn
      ensures PawnCanAdvance(b[r][c].value, w)
    {
      assert r == 1;
    }
  }

  lemma BackRankSquare(b: Board, w: Side, c: Coord)
    requires OpeningShape(b, w)
    ensures PawnsCanAdvance(b, w, w)
    ensures SquareMoves(b, w, w, 0, c) == if c == 1 || c == 6 then KnightOpening(c) else []
  {
    OpeningAdvance(b, w);
    var p := b[0][c].value;
    assert SquareMoves(b, w, w, 0, c) == PieceMoves(b, w, p);
    assert p.row == 0 && p.column == c && p.owner == w && p.kind == BackRankKinds[c];
    assert forall cc | 0 <= cc < 8 :: IsOwn(b[0][cc], w) && IsOwn(b[1][cc], w);
    match p.kind
    case Knight =>
      assert forall x | 0 <= x < 8 :: b[2][x].None?;
      KnightSquare(b, p, c);
    case Bishop =>
      HemmedLines(b, p, BishopDirections);
    case Rook =>
      HemmedLines(b, p, RookDirections);
    case Queen =>
      HemmedLines(b, p, AdjacentShifts);
    case King =>
      KingSquare(b, w);
    case Pawn =>
  }

  lemma PawnRankSquare(b: Board, w: Side, c: Coord)
    requires OpeningShape(b, w)
    ensures PawnsCanAdvance(b, w, w)
    ensures SquareMoves(b, w, w, 1, c) == PawnOpening(c)
  {
    OpeningAdvance(b, w);
    var p := b[1][c].value;
    assert b[2][c].None? && b[3][c].None?;
    assert PawnDiagonal(b, p, 1, c + 1) == [] by {
      if c + 1 < 8 {
        assert b[2][c + 1].None? && IsOwn(b[1][c + 1], w);
      }
    }
    assert PawnDiagonal(b, p, 1, c - 1) == [] by {
      if 0 <= c - 1 {
        assert b[2][c - 1].None? && IsOwn(b[1][c - 1], w);
      }
    }
  }

  lemma {:induction false} QuietRow(b: Board, w: Side, row: Coord, n: nat)
    requires OpeningShape(b, w) && 2 <= row && n <= 8
    ensures PawnsCanAdvance(b, w, w)
    ensures RowMoves(b, w, w, row, n) == []
  {
    if n > 0 {
      QuietRow(b, w, row, n - 1);
      assert !IsOwn(b[row][n - 1], w);
    }
  }

  lemma {:induction false} PawnRank(b: Board, w: Side, n: nat)
    requires OpeningShape(b, w) && n <= 8
    ensures PawnsCanAdvance(b, w, w)
    ensures RowMoves(b, w, w, 1, n) == PawnPushes(n)
  {
    PawnRankSquare(b, w, 0);
    if n > 0 {
      PawnRank(b, w, n - 1);
      PawnRankSquare(b, w, n - 1);
    }
  }

  lemma BackRank(b: Board, w: Side)
    requires OpeningShape(b, w)
    ensures PawnsCanAdvance(b, w, w)
    ensures RowMoves(b, w, w, 0, 8) == KnightOpening(1) + KnightOpening(6)
  {
    BackRankSquare(b, w, 0);
    BackRankSquare(b, w, 1);
    BackRankSquare(b, w, 2);
    BackRankSquare(b, w, 3);
    BackRankSquare(b, w, 4);
    BackRankSquare(b, w, 5);
    BackRankSquare(b, w, 6);
    BackRankSquare(b, w, 7);
    assert RowMoves(b, w, w, 0, 1) == [];
    assert RowMoves(b, w, w, 0, 2) == KnightOpening(1);
    assert RowMoves(b, w, w, 0, 3) == KnightOpening(1);
    assert RowMoves(b, w, w, 0, 4) == KnightOpening(1);
    assert RowMoves(b, w, w, 0, 5) == KnightOpening(1);
    assert RowMoves(b, w, w, 0, 6) == KnightOpening(1);
    assert RowMoves(b, w, w, 0, 7) == KnightOpening(1) + KnightOpening(6);
  }

  lemma {:induction false} QuietRows(b: Board, w: Side, n: nat)
    requires OpeningShape(b, w) && 2 <= n <= 8
    ensures PawnsCanAdvance(b, w, w)
    ensures BoardMoves(b, w, w, n) == KnightOpening(1) + KnightOpening(6) + PawnPushes(8)
  {
    BackRank(b, w);
    if n == 2 {
      PawnRank(b, w, 8);
      assert BoardMoves(b, w, w, 1) == KnightOpening(1) + KnightOpening(6);
    } else {
      QuietRows(b, w, n - 1);
      QuietRow(b, w, n - 1, 8);
    }
  }

  /** The first four candidates start on the knights, the other sixteen on the pawns. */
  lemma OpeningMovers(b: Board, w: Side)
    requires OpeningShape(b, w)
    ensures var ms := KnightOpening(1) + KnightOpening(6) + PawnPushes(8);
      (forall i | 0 <= i < 4 :: b[ms[i].startRow][ms[i].startColumn] == Some(MakePiece(Knight, ms[i].startColumn, 0, w, true, false)))
      && (forall i | 4 <= i < 20 :: b[ms[i].startRow][ms[i].startColumn] == Some(MakePiece(Pawn, ms[i].startColumn, 1, w, true, false)))
  {
    var ms := KnightOpening(1) + KnightOpening(6) + PawnPushes(8);
    forall i | 4 <= i < 20
      ensures ms[i].startRow == 1
    {
      PawnPushesStart(8, i - 4);
      assert ms[i] == PawnPushes(8)[i - 4];
    }
  }

  /** From the initial layout, with the side to move as the white side,
      the candidates are the two moves of each knight followed by the two
      pushes of each pawn: 4 knight moves and 16 pawn moves. */
  lemma InitialCandidates(current: Side, other: Side)
    requires current != other
    ensures var pos := Init(current, other, None, None);
      PawnsCanAdvance(pos.board, pos.current, pos.white)
      && Candidates(pos) == KnightOpening(1) + KnightOpening(6) + PawnPushes(8)
      && |Candidates(pos)| == 20
    ensures var pos := Init(current, other, None, None);
      var ms := KnightOpening(1) + KnightOpening(6) + PawnPushes(8);
      (forall i | 0 <= i < 4 :: pos.board[ms[i].startRow][ms[i].startColumn]
                                  == Some(MakePiece(Knight, ms[i].startColumn, 0, current, true, false)))
      && (forall i | 4 <= i < 20 :: pos.board[ms[i].startRow][ms[i].startColumn]
                                  == Some(MakePiece(Pawn, ms[i].startColumn, 1, current, true, false)))
  {
    var pos := Init(current, other, None, None);
    assert pos.board == InitialBoard(current, other);
    assert OpeningShape(pos.board, current);
    QuietRows(pos.board, current, 8);
    OpeningMovers(pos.board, current);
  }

  /** Every pawn push of the first n columns starts on row 1 in one of those columns. */
  lemma {:induction false} PawnPushesStart(n: nat, i: int)
    requires n <= 8 && 0 <= i < 2 * n
    ensures PawnPushes(n)[i].startRow == 1 && 0 <= PawnPushes(n)[i].startColumn < n
  {
    if i < 2 * (n - 1) {
      PawnPushesStart(n - 1, i);
    }
  }
}
