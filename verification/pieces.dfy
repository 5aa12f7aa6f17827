/** Per-piece candidate-move generation of chess_pieces.py: a piece looks
    at a board snapshot and lists the moves its movement pattern allows,
    ignoring whether they leave its own king attacked. */
module Pieces {
  import opened Types
  import opened Moves

  /** A piece and the square it stores. firstMove and enPassant belong to
      pawns and canCastle to rooks and kings; the other kinds carry false. */
  datatype Piece = Piece(kind: Kind, column: Coord, row: Coord, owner: Side,
                         firstMove: bool, enPassant: bool, canCastle: bool)

  predicate IsGrid(b: seq<seq<Option<Piece>>>) {
    |b| == 8 && forall r | 0 <= r < 8 :: |b[r]| == 8
  }

  /** The 8x8 grid of optional pieces, indexed board[row][column]. */
  type Board = b: seq<seq<Option<Piece>>> | IsGrid(b) witness seq(8, _ => seq(8, _ => None))

  /** The board with no piece on it. */
  function EmptyBoard(): Board {
    seq(8, _ => seq(8, _ => None))
  }

  /** Every piece stores the square it stands on. */
  predicate WellPlaced(b: Board) {
    forall r, c | 0 <= r < 8 && 0 <= c < 8 ::
      b[r][c].Some? ==> b[r][c].value.column == c && b[r][c].value.row == r
  }

  /** The constructors of the piece classes: `flag` is a pawn's first_move
      or a rook's or king's can_castle; `enPassantable` is a pawn's
      is_en_passantable. The square must be on the board. */
  function NewPiece(kind: Kind, column: int, row: int, owner: Side, flag: bool, enPassantable: bool): (r: Result<Piece>)
    ensures r.Ok? <==> InBounds(column) && InBounds(row)
    ensures r.Err? ==> r.error == CoordinatesOutOfBounds
    ensures r.Ok? ==> (r.value.kind == kind && r.value.column == column && r.value.row == row
                       && r.value.owner == owner)
    ensures r.Ok? ==> (r.value.firstMove <==> kind == Pawn && flag)
    ensures r.Ok? ==> (r.value.enPassant <==> kind == Pawn && enPassantable)
    ensures r.Ok? ==> (r.value.canCastle <==> (kind == Rook || kind == King) && flag)
  {
    if InBounds(row) && InBounds(column) then
      Ok(Piece(kind, column, row, owner,
               kind == Pawn && flag, kind == Pawn && enPassantable,
               (kind == Rook || kind == King) && flag))
    else
      Err(CoordinatesOutOfBounds)
  }

  /** `set_row`: only a row on the board is accepted, and only the row changes. */
  function SetRow(p: Piece, row: int): (r: Result<Piece>)
    ensures r.Ok? <==> InBounds(row)
    ensures r.Err? ==> r.error == CoordinatesOutOfBounds
    ensures r.Ok? ==> r.value.row == row && r.value.(row := p.row) == p
  {
    if InBounds(row) then Ok(p.(row := row)) else Err(CoordinatesOutOfBounds)
  }

  /** `set_column`: only a column on the board is accepted, and only the column changes. */
  function SetColumn(p: Piece, column: int): (r: Result<Piece>)
    ensures r.Ok? <==> InBounds(column)
    ensures r.Err? ==> r.error == CoordinatesOutOfBounds
    ensures r.Ok? ==> r.value.column == column && r.value.(column := p.column) == p
  {
    if InBounds(column) then Ok(p.(column := column)) else Err(CoordinatesOutOfBounds)
  }

  /** The square holds a piece of `owner`. */
  predicate IsOwn(square: Option<Piece>, owner: Side) {
    square.Some? && square.value.owner == owner
  }

  // ---------------------------------------------------------------------
  // Direction and shift tables

  /** product((-1, 1), (-1, 1)) */
  const BishopDirections: seq<(int, int)> := [(-1, -1), (-1, 1), (1, -1), (1, 1)]

  const RookDirections: seq<(int, int)> := [(1, 0), (0, 1), (-1, 0), (0, -1)]

  /** product((1, 0, -1), (1, 0, -1)) without (0, 0): the queen's directions
      and the king's shifts. */
  const AdjacentShifts: seq<(int, int)> :=
    [(1, 1), (1, 0), (1, -1), (0, 1), (0, -1), (-1, 1), (-1, 0), (-1, -1)]

  /** product((-2, 2), (-1, 1)) + product((-1, 1), (-2, 2)) */
  const KnightShifts: seq<(int, int)> :=
    [(-2, -1), (-2, 1), (2, -1), (2, 1), (-1, -2), (-1, 2), (1, -2), (1, 2)]

  /** A unit step along a line: both components in -1..1, not both zero. */
  predicate IsDirection(d: (int, int)) {
    -1 <= d.0 <= 1 && -1 <= d.1 <= 1 && d != (0, 0)
  }

  // ---------------------------------------------------------------------
  // Line generation (`_get_moves_lines`)

  /** The column and row `distance` steps from p along (dc, dr). */
  function RayColumn(p: Piece, dc: int, distance: int): int { p.column + distance * dc }
  function RayRow(p: Piece, dr: int, distance: int): int { p.row + distance * dr }

  predicate RayOnBoard(p: Piece, dc: int, dr: int, distance: int) {
    InBounds(RayColumn(p, dc, distance)) && InBounds(RayRow(p, dr, distance))
  }

  /** The inner loop over one direction, from `distance` up to 7: an
      off-board square is skipped, an empty or enemy square is emitted, and
      the walk stops at the first occupied square. */
  function RayMoves(b: Board, p: Piece, dc: int, dr: int, distance: int): seq<Move>
    requires 1 <= distance
    decreases 8 - distance
  {
    if distance >= 8 then []
    else if !RayOnBoard(p, dc, dr, distance) then RayMoves(b, p, dc, dr, distance + 1)
    else
      var c, r := RayColumn(p, dc, distance), RayRow(p, dr, distance);
      var square := b[r][c];
      (if !IsOwn(square, p.owner) then [Move(p.column, p.row, c, r)] else [])
      + (if square.Some? then [] else RayMoves(b, p, dc, dr, distance + 1))
  }

  /** The outer loop: the rays of `directions`, in order. */
  function LineMoves(b: Board, p: Piece, directions: seq<(int, int)>): seq<Move>
  {
    if directions == [] then []
    else
      var d := directions[|directions| - 1];
      LineMoves(b, p, directions[..|directions| - 1]) + RayMoves(b, p, d.0, d.1, 1)
  }

  method GetMovesLines(b: Board, p: Piece, directions: seq<(int, int)>) returns (result: seq<Move>)
    ensures result == LineMoves(b, p, directions)
  {
    result := [];
    for i := 0 to |directions|
      invariant result == LineMoves(b, p, directions[..i])
    {
      var (dc, dr) := directions[i];
      var ray := GetRay(b, p, dc, dr);
      result := result + ray;
      assert directions[..i + 1][..i] == directions[..i];
    }
    assert directions[..|directions|] == directions;
  }

  /** The inner loop of `_get_moves_lines`: one direction, distances 1 to 7. */
  method GetRay(b: Board, p: Piece, dc: int, dr: int) returns (ray: seq<Move>)
    ensures ray == RayMoves(b, p, dc, dr, 1)
  {
    ray := [];
    var distance := 1;
    while distance < 8
      invariant 1 <= distance <= 8
      invariant ray + RayMoves(b, p, dc, dr, distance) == RayMoves(b, p, dc, dr, 1)
    {
      RayAdvance(b, p, dc, dr, distance, ray);
      var c, r := RayColumn(p, dc, distance), RayRow(p, dr, distance);
      if !(InBounds(c) && InBounds(r)) {
        distance := distance + 1;
        continue;
      }
      var square := b[r][c];
      if !IsOwn(square, p.owner) {
        ray := ray + [Move(p.column, p.row, c, r)];
      }
      if square.Some? {
        break;
      }
      distance := distance + 1;
    }
    assert ray == RayMoves(b, p, dc, dr, 1);
  }

  /** One square of a ray walk: `done` holds the moves found before
      distance d; the square at d is skipped when it is off the board,
      emitted unless it holds an own piece, and ends the walk when it is
      occupied. */
  lemma RayAdvance(b: Board, p: Piece, dc: int, dr: int, d: int, done: seq<Move>)
    requires 1 <= d < 8 && done + RayMoves(b, p, dc, dr, d) == RayMoves(b, p, dc, dr, 1)
    ensures !RayOnBoard(p, dc, dr, d) ==> done + RayMoves(b, p, dc, dr, d + 1) == RayMoves(b, p, dc, dr, 1)
    ensures RayOnBoard(p, dc, dr, d) ==>
      var c, r := RayColumn(p, dc, d), RayRow(p, dr, d);
      var next := if IsOwn(b[r][c], p.owner) then done else done + [Move(p.column, p.row, c, r)];
      (b[r][c].Some? ==> next == RayMoves(b, p, dc, dr, 1))
      && (b[r][c].None? ==> next + RayMoves(b, p, dc, dr, d + 1) == RayMoves(b, p, dc, dr, 1))
  {
    if RayOnBoard(p, dc, dr, d) {
      var c, r := RayColumn(p, dc, d), RayRow(p, dr, d);
      var head := if IsOwn(b[r][c], p.owner) then [] else [Move(p.column, p.row, c, r)];
      var rest := if b[r][c].Some? then [] else RayMoves(b, p, dc, dr, d + 1);
      assert RayMoves(b, p, dc, dr, d) == head + rest;
      AppendAssociates(done, head, rest);
      if b[r][c].Some? {
        assert done + head + rest == done + head;
      }
    }
  }

  // ---------------------------------------------------------------------
  // Shift generation (`_get_moves_shifts`)

  /** The move for one shift, if it lands on the board and not on an own piece. */
  function ShiftMove(b: Board, p: Piece, shift: (int, int)): seq<Move> {
    var c, r := p.column + shift.0, p.row + shift.1;
    if InBounds(c) && InBounds(r) && !IsOwn(b[r][c], p.owner) then [Move(p.column, p.row, c, r)]
    else []
  }

  function ShiftMoves(b: Board, p: Piece, shifts: seq<(int, int)>): seq<Move> {
    if shifts == [] then []
    else ShiftMoves(b, p, shifts[..|shifts| - 1]) + ShiftMove(b, p, shifts[|shifts| - 1])
  }

  method GetMovesShifts(b: Board, p: Piece, shifts: seq<(int, int)>) returns (result: seq<Move>)
    ensures result == ShiftMoves(b, p, shifts)
  {
    result := [];
    for i := 0 to |shifts|
      invariant result == ShiftMoves(b, p, shifts[..i])
    {
      var c, r := shifts[i].0 + p.column, shifts[i].1 + p.row;
      if InBounds(c) && InBounds(r) {
        var square := b[r][c];
        if !(square.Some? && square.value.owner == p.owner) {
          result := result + [Move(p.column, p.row, c, r)];
        }
      }
      assert shifts[..i + 1][..i] == shifts[..i];
    }
    assert shifts[..|shifts|] == shifts;
  }

  // ---------------------------------------------------------------------
  // Pawn (`Pawn._get_moves`)

  /** +1 (toward row 7) for the white side's pawns, -1 for the other side's. */
  function Forward(p: Piece, white: Side): int {
    if p.owner == white then 1 else -1
  }

  /** The rows the pawn generator indexes exist: the square ahead, and the
      square two ahead while the pawn still has its first move. (The source
      indexes them unchecked and crashes or wraps around otherwise.) */
  predicate PawnCanAdvance(p: Piece, white: Side) {
    InBounds(p.row + Forward(p, white))
    && (p.firstMove ==> InBounds(p.row + 2 * Forward(p, white)))
  }

  /** The square beside the pawn holds an other player's pawn and the
      diagonal ahead of it is empty. The source tests the neighbour's
      is_en_passantable method without calling it, so its flag is ignored. */
  predicate EnPassantBeside(b: Board, p: Piece, f: int, column: int)
    requires InBounds(p.row + f) && InBounds(column)
  {
    var beside := b[p.row][column];
    beside.Some? && beside.value.kind == Pawn && beside.value.owner != p.owner
    && b[p.row + f][column].None?
  }

  /** The diagonal moves toward `column`: a capture when the diagonal holds
      an other player's piece, and an en-passant candidate when the square
      beside holds an other player's pawn and the diagonal is empty. */
  function PawnDiagonal(b: Board, p: Piece, f: int, column: int): seq<Move>
    requires InBounds(p.row + f)
  {
    if !InBounds(column) then []
    else
      var diagonal := b[p.row + f][column];
      (if diagonal.Some? && diagonal.value.owner != p.owner then [Move(p.column, p.row, column, p.row + f)] else [])
      + (if EnPassantBeside(b, p, f, column) then [Move(p.column, p.row, column, p.row + f)] else [])
  }

  function PawnMoves(b: Board, white: Side, p: Piece): seq<Move>
    requires PawnCanAdvance(p, white)
  {
    var f := Forward(p, white);
    (if b[p.row + f][p.column].None? then [Move(p.column, p.row, p.column, p.row + f)] else [])
    + (if p.firstMove && b[p.row + 2 * f][p.column].None? then [Move(p.column, p.row, p.column, p.row + 2 * f)] else [])
    + PawnDiagonal(b, p, f, p.column + 1)
    + PawnDiagonal(b, p, f, p.column - 1)
  }

  /** The diagonal moves toward `column`, as the pawn generator appends them. */
  method GetDiagonalMoves(b: Board, p: Piece, f: int, column: int) returns (result: seq<Move>)
    requires InBounds(p.row + f)
    ensures result == PawnDiagonal(b, p, f, column)
  {
    result := [];
    if 0 <= column < 8 {
      var diagonal := b[p.row + f][column];
      if diagonal.Some? && diagonal.value.owner != p.owner {
        result := result + [Move(p.column, p.row, column, p.row + f)];
      }
      var beside := b[p.row][column];
      if beside.Some? && beside.value.kind == Pawn && beside.value.owner != p.owner && diagonal.None? {
        result := result + [Move(p.column, p.row, column, p.row + f)];
      }
    }
  }

  /** `Pawn._get_moves`, appending to a result list. */
  method GetPawnMoves(b: Board, white: Side, p: Piece) returns (result: seq<Move>)
    requires PawnCanAdvance(p, white)
    ensures result == PawnMoves(b, white, p)
  {
    var f := if p.owner == white then 1 else -1;
    ghost var ahead := if b[p.row + f][p.column].None? then [Move(p.column, p.row, p.column, p.row + f)] else [];
    ghost var jump := if p.firstMove && b[p.row + 2 * f][p.column].None? then [Move(p.column, p.row, p.column, p.row + 2 * f)] else [];
    result := [];
    if b[p.row + f][p.column].None? {
      result := result + [Move(p.column, p.row, p.column, p.row + f)];
    }
    assert result == ahead;
    if p.firstMove && b[p.row + 2 * f][p.column].None? {
      result := result + [Move(p.column, p.row, p.column, p.row + 2 * f)];
    }
    assert result == ahead + jump;
    var right := GetDiagonalMoves(b, p, f, p.column + 1);
    var left := GetDiagonalMoves(b, p, f, p.column - 1);
    result := result + right + left;
  }

  // ---------------------------------------------------------------------
  // King (`King._get_moves`)

  /** The corner of the king's row holds a rook of the king's owner that may still castle. */
  predicate CastlingRook(b: Board, p: Piece, corner: Coord) {
    var square := b[p.row][corner];
    square.Some? && square.value.kind == Rook && square.value.owner == p.owner && square.value.canCastle
  }

  /** Columns lo..hi-1 of the king's row are empty. */
  predicate RowEmpty(b: Board, row: Coord, lo: Coord, hi: int) {
    forall column | lo <= column < hi && column < 8 :: b[row][column].None?
  }

  predicate CanCastleQueenSide(b: Board, p: Piece) {
    p.column == 4 && p.canCastle && CastlingRook(b, p, 0) && RowEmpty(b, p.row, 1, 4)
  }

  predicate CanCastleKingSide(b: Board, p: Piece) {
    p.column == 4 && p.canCastle && CastlingRook(b, p, 7) && RowEmpty(b, p.row, 5, 7)
  }

  function KingMoves(b: Board, p: Piece): seq<Move> {
    ShiftMoves(b, p, AdjacentShifts)
    + (if CanCastleQueenSide(b, p) then [Move(p.column, p.row, 2, p.row)] else [])
    + (if CanCastleKingSide(b, p) then [Move(p.column, p.row, 6, p.row)] else [])
  }

  method GetMovesKing(b: Board, p: Piece) returns (result: seq<Move>)
    ensures result == KingMoves(b, p)
  {
    result := GetMovesShifts(b, p, AdjacentShifts);
    if p.column == 4 && p.canCastle {
      var leftCorner := b[p.row][0];
      if leftCorner.Some? && leftCorner.value.kind == Rook && leftCorner.value.owner == p.owner
         && leftCorner.value.canCastle && (forall column | 1 <= column < 4 :: b[p.row][column].None?)
      {
        result := result + [Move(p.column, p.row, 2, p.row)];
      }
      var rightCorner := b[p.row][7];
      if rightCorner.Some? && rightCorner.value.kind == Rook && rightCorner.value.owner == p.owner
         && rightCorner.value.canCastle && (forall column | 5 <= column < 7 :: b[p.row][column].None?)
      {
        result := result + [Move(p.column, p.row, 6, p.row)];
      }
    }
  }

  // ---------------------------------------------------------------------
  // Dispatch (`_get_moves` of each class)

  /** What the generators need of the board: pawns can look ahead. */
  predicate Generable(p: Piece, white: Side) {
    p.kind == Pawn ==> PawnCanAdvance(p, white)
  }

  function PieceMoves(b: Board, white: Side, p: Piece): seq<Move>
    requires Generable(p, white)
  {
    match p.kind
    case Pawn => PawnMoves(b, white, p)
    case Knight => ShiftMoves(b, p, KnightShifts)
    case Bishop => LineMoves(b, p, BishopDirections)
    case Rook => LineMoves(b, p, RookDirections)
    case Queen => LineMoves(b, p, AdjacentShifts)
    case King => KingMoves(b, p)
  }

  method GetMoves(b: Board, white: Side, p: Piece) returns (result: seq<Move>)
    requires Generable(p, white)
    ensures result == PieceMoves(b, white, p)
  {
    match p.kind
    case Pawn => result := GetPawnMoves(b, white, p);
    case Knight => result := GetMovesShifts(b, p, KnightShifts);
    case Bishop => result := GetMovesLines(b, p, BishopDirections);
    case Rook => result := GetMovesLines(b, p, RookDirections);
    case Queen => result := GetMovesLines(b, p, AdjacentShifts);
    case King => result := GetMovesKing(b, p);
  }

  // ---------------------------------------------------------------------
  // Text

  /** The letter of `__str__` for each class. */
  function Letter(kind: Kind): char {
    match kind
    case Pawn => 'P'
    case Knight => 'N'
    case Bishop => 'B'
    case Rook => 'R'
    case Queen => 'Q'
    case King => 'K'
  }

  /** The class name `__repr__` prints. */
  function KindName(kind: Kind): string {
    match kind
    case Pawn => "Pawn"
    case Knight => "Knight"
    case Bishop => "Bishop"
    case Rook => "Rook"
    case Queen => "Queen"
    case King => "King"
  }

  /** `__str__`: the kind letter and the owner's character. */
  function PieceText(p: Piece, charOf: Side -> char): (s: string)
    ensures |s| == 2 && s[0] == Letter(p.kind) && s[1] == charOf(p.owner)
  {
    [Letter(p.kind), charOf(p.owner)]
  }

  /** `__repr__`, for instance "Pawn at e2". */
  function PieceRepr(p: Piece): (s: string)
    ensures |s| == |KindName(p.kind)| + 6
    ensures s[..|KindName(p.kind)|] == KindName(p.kind)
    ensures s[|s| - 6..|s| - 2] == " at "
    ensures s[|s| - 2] == FileChar(p.column) && s[|s| - 1] == RankChar(p.row)
  {
    KindName(p.kind) + " at " + [FileChar(p.column), RankChar(p.row)]
  }
}
