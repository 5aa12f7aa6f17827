/** The position of chess_state.py as values: the initial layout, the
    candidate list of the side to move, the check test, the en-passant
    reset, the effects of a move and the end-of-game queries. The class in
    engine_state.dfy runs these on its mutable board. */
module Engine {
  import opened Types
  import opened Moves
  import opened Pieces
  import PiecesLemmas

  /** A state: the board, the side to move, the waiting side and the side
      that plays up the board (row 0 to row 7). */
  datatype Position = Position(board: Board, current: Side, other: Side, white: Side)

  /** The board with one square replaced. */
  function SetSquare(b: Board, column: Coord, row: Coord, square: Option<Piece>): (r: Board)
    ensures forall rr, cc | 0 <= rr < 8 && 0 <= cc < 8 ::
      r[rr][cc] == if rr == row && cc == column then square else b[rr][cc]
  {
    b[row := b[row][column := square]]
  }

  // ---------------------------------------------------------------------
  // Initial layout (`__init__`)

  /** `_make_piece`: the piece class of `kind` built with its flags; the
      square is known to be on the board. */
  function MakePiece(kind: Kind, column: Coord, row: Coord, owner: Side, flag: bool, enPassantable: bool): (p: Piece)
    ensures NewPiece(kind, column, row, owner, flag, enPassantable) == Ok(p)
  {
    Piece(kind, column, row, owner, kind == Pawn && flag, kind == Pawn && enPassantable,
          (kind == Rook || kind == King) && flag)
  }

  const BackRankKinds: seq<Kind> := [Rook, Knight, Bishop, Queen, King, Bishop, Knight, Rook]

  /** A back rank built with the constructors' defaults (rooks and king may castle). */
  function BackRank(owner: Side, row: Coord): seq<Option<Piece>> {
    seq(8, (c: int) requires 0 <= c < 8 => Some(MakePiece(BackRankKinds[c], c, row, owner, true, false)))
  }

  /** A row of pawns that have not moved yet. */
  function PawnRow(owner: Side, row: Coord): seq<Option<Piece>> {
    seq(8, (c: int) requires 0 <= c < 8 => Some(MakePiece(Pawn, c, row, owner, true, false)))
  }

  function EmptyRow(): seq<Option<Piece>> { seq(8, _ => None) }

  function InitialBoard(white: Side, black: Side): Board {
    [BackRank(white, 0), PawnRow(white, 1), EmptyRow(), EmptyRow(),
     EmptyRow(), EmptyRow(), PawnRow(black, 6), BackRank(black, 7)]
  }

  /** `__init__`: `white` defaults to the side to move; without a board the
      initial layout is set up with the white side on rows 0 and 1. */
  function Init(current: Side, other: Side, white: Option<Side>, board: Option<Board>): (pos: Position)
    ensures pos.current == current && pos.other == other
    ensures pos.white == (if white.Some? then white.value else current)
    ensures board.Some? ==> pos.board == board.value
    ensures board.None? ==> pos.board == InitialBoard(pos.white, if current == pos.white then other else current)
  {
    var w := if white.Some? then white.value else current;
    if board.Some? then Position(board.value, current, other, w)
    else Position(InitialBoard(w, if current == w then other else current), current, other, w)
  }

  // ---------------------------------------------------------------------
  // Candidate moves (`get_moves`)

  /** Every pawn of `side` can look ahead without leaving the board. */
  predicate PawnsCanAdvance(b: Board, side: Side, white: Side) {
    forall r, c | 0 <= r < 8 && 0 <= c < 8 ::
      IsOwn(b[r][c], side) && b[r][c].value.kind == Pawn ==> PawnCanAdvance(b[r][c].value, white)
  }

  /** What the state methods need of a state: every piece stores its own
      square, and the pawns of both sides can look ahead. */
  predicate Valid(pos: Position) {
    WellPlaced(pos.board)
    && PawnsCanAdvance(pos.board, pos.current, pos.white)
    && PawnsCanAdvance(pos.board, pos.other, pos.white)
  }

  /** The moves of the piece of `side` on one square (none for other squares). */
  function SquareMoves(b: Board, side: Side, white: Side, row: Coord, column: Coord): seq<Move>
    requires PawnsCanAdvance(b, side, white)
  {
    if IsOwn(b[row][column], side) then PieceMoves(b, white, b[row][column].value) else []
  }

  /** The moves of the first n squares of a row. */
  function RowMoves(b: Board, side: Side, white: Side, row: Coord, n: nat): seq<Move>
    requires PawnsCanAdvance(b, side, white) && n <= 8
  {
    if n == 0 then [] else RowMoves(b, side, white, row, n - 1) + SquareMoves(b, side, white, row, n - 1)
  }

  /** The moves of the first n rows, row by row and left to right. */
  function BoardMoves(b: Board, side: Side, white: Side, n: nat): seq<Move>
    requires PawnsCanAdvance(b, side, white) && n <= 8
  {
    if n == 0 then [] else BoardMoves(b, side, white, n - 1) + RowMoves(b, side, white, n - 1, 8)
  }

  /** `get_moves`: the raw candidate list of the side to move. */
  function Candidates(pos: Position): seq<Move>
    requires PawnsCanAdvance(pos.board, pos.current, pos.white)
  {
    BoardMoves(pos.board, pos.current, pos.white, 8)
  }

  /** The piece of `side` on (row, column) generates m. */
  predicate Generates(b: Board, side: Side, white: Side, row: int, column: int, m: Move)
    requires PawnsCanAdvance(b, side, white)
  {
    0 <= row < 8 && 0 <= column < 8 && IsOwn(b[row][column], side)
    && m in PieceMoves(b, white, b[row][column].value)
  }

  lemma RowMovesChar(b: Board, side: Side, white: Side, row: Coord, n: nat, m: Move)
    requires PawnsCanAdvance(b, side, white) && n <= 8
    ensures m in RowMoves(b, side, white, row, n) <==>
      exists column :: column < n && Generates(b, side, white, row, column, m)
  {
    if m in RowMoves(b, side, white, row, n) {
      var column := RowMovesSound(b, side, white, row, n, m);
    }
    if exists column :: column < n && Generates(b, side, white, row, column, m) {
      var column :| column < n && Generates(b, side, white, row, column, m);
      RowMovesComplete(b, side, white, row, n, column, m);
    }
  }

  /** A move of the first n squares of a row comes from one of them. */
  lemma {:induction false} RowMovesSound(b: Board, side: Side, white: Side, row: Coord, n: nat, m: Move)
    returns (column: int)
    requires PawnsCanAdvance(b, side, white) && n <= 8 && m in RowMoves(b, side, white, row, n)
    ensures column < n && Generates(b, side, white, row, column, m)
  {
    assert n > 0;
    assert RowMoves(b, side, white, row, n) == RowMoves(b, side, white, row, n - 1) + SquareMoves(b, side, white, row, n - 1);
    if m in SquareMoves(b, side, white, row, n - 1) {
      column := n - 1;
    } else {
      column := RowMovesSound(b, side, white, row, n - 1, m);
    }
  }

  /** A move generated by one of the first n squares of a row is among their moves. */
  lemma {:induction false} RowMovesComplete(b: Board, side: Side, white: Side, row: Coord, n: nat, column: int, m: Move)
    requires PawnsCanAdvance(b, side, white) && n <= 8
    requires column < n && Generates(b, side, white, row, column, m)
    ensures m in RowMoves(b, side, white, row, n)
  {
    assert RowMoves(b, side, white, row, n) == RowMoves(b, side, white, row, n - 1) + SquareMoves(b, side, white, row, n - 1);
    if column < n - 1 {
      RowMovesComplete(b, side, white, row, n - 1, column, m);
    }
  }

  /** The candidate list holds exactly the moves that some piece of the
      side generates. */
  lemma BoardMovesChar(b: Board, side: Side, white: Side, n: nat, m: Move)
    requires PawnsCanAdvance(b, side, white) && n <= 8
    ensures m in BoardMoves(b, side, white, n) <==>
      exists row, column :: row < n && Generates(b, side, white, row, column, m)
  {
    if m in BoardMoves(b, side, white, n) {
      var row, column := BoardMovesSound(b, side, white, n, m);
    }
    if exists row, column :: row < n && Generates(b, side, white, row, column, m) {
      var row, column :| row < n && Generates(b, side, white, row, column, m);
      BoardMovesComplete(b, side, white, n, row, column, m);
    }
  }

  /** A move of the first n rows comes from a square of one of them. */
  lemma {:induction false} BoardMovesSound(b: Board, side: Side, white: Side, n: nat, m: Move)
    returns (row: int, column: int)
    requires PawnsCanAdvance(b, side, white) && n <= 8 && m in BoardMoves(b, side, white, n)
    ensures row < n && Generates(b, side, white, row, column, m)
  {
    assert n > 0;
    assert BoardMoves(b, side, white, n) == BoardMoves(b, side, white, n - 1) + RowMoves(b, side, white, n - 1, 8);
    if m in RowMoves(b, side, white, n - 1, 8) {
      row := n - 1;
      column := RowMovesSound(b, side, white, n - 1, 8, m);
    } else {
      row, column := BoardMovesSound(b, side, white, n - 1, m);
    }
  }

  /** A move generated by a square of the first n rows is among their moves. */
  lemma {:induction false} BoardMovesComplete(b: Board, side: Side, white: Side, n: nat, row: int, column: int, m: Move)
    requires PawnsCanAdvance(b, side, white) && n <= 8
    requires row < n && Generates(b, side, white, row, column, m)
    ensures m in BoardMoves(b, side, white, n)
  {
    assert BoardMoves(b, side, white, n) == BoardMoves(b, side, white, n - 1) + RowMoves(b, side, white, n - 1, 8);
    if row == n - 1 {
      RowMovesComplete(b, side, white, n - 1, 8, column, m);
    } else {
      BoardMovesComplete(b, side, white, n - 1, row, column, m);
    }
  }

  /** A candidate of a well-placed board is generated by the piece on its start square. */
  lemma CandidateStart(b: Board, side: Side, white: Side, m: Move)
    requires WellPlaced(b) && PawnsCanAdvance(b, side, white)
    requires m in BoardMoves(b, side, white, 8)
    ensures Generates(b, side, white, m.startRow, m.startColumn, m)
  {
    BoardMovesChar(b, side, white, 8, m);
    var row, column :| row < 8 && Generates(b, side, white, row, column, m);
    PiecesLemmas.MoveShape(b, white, b[row][column].value, m);
  }

  // ---------------------------------------------------------------------
  // Check (`_get_current_players_king`, `_is_in_check`)

  predicate IsKing(square: Option<Piece>, side: Side) {
    square.Some? && square.value.kind == King && square.value.owner == side
  }

  predicate HasKing(b: Board, side: Side) {
    exists row, column | 0 <= row < 8 && 0 <= column < 8 :: IsKing(b[row][column], side)
  }

  /** The first king of `side` from square k on, in row-major order. */
  function FindKingFrom(b: Board, side: Side, k: nat): Option<Piece>
    requires k <= 64
    decreases 64 - k
  {
    if k == 64 then None
    else if IsKing(b[k / 8][k % 8], side) then b[k / 8][k % 8]
    else FindKingFrom(b, side, k + 1)
  }

  function FindKing(b: Board, side: Side): Option<Piece> {
    FindKingFrom(b, side, 0)
  }

  lemma {:induction false} FindKingFromChar(b: Board, side: Side, k: nat)
    requires k <= 64
    ensures FindKingFrom(b, side, k).Some? <==> exists j | k <= j < 64 :: IsKing(b[j / 8][j % 8], side)
    ensures FindKingFrom(b, side, k).Some? ==> exists j | k <= j < 64 ::
      IsKing(b[j / 8][j % 8], side) && FindKingFrom(b, side, k) == b[j / 8][j % 8]
      && forall i | k <= i < j :: !IsKing(b[i / 8][i % 8], side)
    decreases 64 - k
  {
    if k < 64 && !IsKing(b[k / 8][k % 8], side) {
      FindKingFromChar(b, side, k + 1);
      if FindKingFrom(b, side, k).Some? {
        var j :| k + 1 <= j < 64 &&
          IsKing(b[j / 8][j % 8], side) && FindKingFrom(b, side, k + 1) == b[j / 8][j % 8]
          && forall i | k + 1 <= i < j :: !IsKing(b[i / 8][i % 8], side);
        assert forall i | k <= i < j :: !IsKing(b[i / 8][i % 8], side);
      }
    }
  }

  /** The king search finds a king whenever the side has one: it is the
      first one in row-major order. */
  lemma FindKingChar(b: Board, side: Side)
    ensures FindKing(b, side).Some? <==> HasKing(b, side)
    ensures FindKing(b, side).Some? ==> exists row, column | 0 <= row < 8 && 0 <= column < 8 ::
      IsKing(b[row][column], side) && FindKing(b, side) == b[row][column]
      && forall r, c | 0 <= r < 8 && 0 <= c < 8 && 8 * r + c < 8 * row + column :: !IsKing(b[r][c], side)
  {
    FindKingFromChar(b, side, 0);
    if HasKing(b, side) {
      var row, column :| 0 <= row < 8 && 0 <= column < 8 && IsKing(b[row][column], side);
      var j := 8 * row + column;
      assert j / 8 == row && j % 8 == column;
    }
    if FindKing(b, side).Some? {
      var j :| 0 <= j < 64 &&
        IsKing(b[j / 8][j % 8], side) && FindKingFrom(b, side, 0) == b[j / 8][j % 8]
        && forall i | 0 <= i < j :: !IsKing(b[i / 8][i % 8], side);
      forall r, c | 0 <= r < 8 && 0 <= c < 8 && 8 * r + c < 8 * (j / 8) + j % 8
        ensures !IsKing(b[r][c], side)
      {
        var i := 8 * r + c;
        assert i / 8 == r && i % 8 == c;
      }
    }
  }

  /** The end squares of a move list. */
  function Destinations(ms: seq<Move>): set<(int, int)> {
    set m | m in ms :: (m.endColumn, m.endRow)
  }

  /** `_is_in_check`: the square the side to move's first king stores is an
      end square of the waiting side's raw candidate list. */
  function InCheck(pos: Position): bool
    requires HasKing(pos.board, pos.current)
    requires PawnsCanAdvance(pos.board, pos.other, pos.white)
  {
    FindKingChar(pos.board, pos.current);
    var king := FindKing(pos.board, pos.current).value;
    (king.column, king.row) in Destinations(BoardMoves(pos.board, pos.other, pos.white, 8))
  }

  // ---------------------------------------------------------------------
  // En-passant reset (`_reset_en_passantable_pawns`)

  /** Row 3 when the side to move is the white side, row 4 otherwise. */
  function ResetRow(current: Side, white: Side): Coord {
    if current == white then 3 else 4
  }

  /** The pawn of `side` whose en-passant flag is set. */
  predicate EnPassantPawn(square: Option<Piece>, side: Side) {
    square.Some? && square.value.kind == Pawn && square.value.owner == side && square.value.enPassant
  }

  /** The loop over the row from cell i on: each en-passant pawn of `side`
      is replaced, at the column it stores, by a pawn with both flags
      cleared. The row is updated while it is being walked. */
  function ResetCells(cells: seq<Option<Piece>>, i: nat, row: Coord, side: Side): (r: seq<Option<Piece>>)
    requires |cells| == 8 && i <= 8
    ensures |r| == 8
    decreases 8 - i
  {
    if i == 8 then cells
    else
      var square := cells[i];
      var next := if EnPassantPawn(square, side)
        then cells[square.value.column := Some(Piece(Pawn, square.value.column, row, side, false, false, false))]
        else cells;
      ResetCells(next, i + 1, row, side)
  }

  function ResetBoard(b: Board, current: Side, white: Side): Board {
    var row := ResetRow(current, white);
    b[row := ResetCells(b[row], 0, row, current)]
  }

  function ResetPosition(pos: Position): Position {
    pos.(board := ResetBoard(pos.board, pos.current, pos.white))
  }

  /** Cell j of a well-placed row after the walk from i: the en-passant
      pawns of `side` from i on are cleared, the rest is unchanged. */
  lemma {:induction false} ResetCellsEffect(cells: seq<Option<Piece>>, i: nat, row: Coord, side: Side)
    requires |cells| == 8 && i <= 8
    requires forall j | 0 <= j < 8 :: cells[j].Some? ==> cells[j].value.column == j
    ensures forall j | 0 <= j < 8 :: (ResetCells(cells, i, row, side)[j] ==
      if i <= j && EnPassantPawn(cells[j], side) then Some(Piece(Pawn, j, row, side, false, false, false))
      else cells[j])
    decreases 8 - i
  {
    if i < 8 {
      var square := cells[i];
      var next := if EnPassantPawn(square, side)
        then cells[square.value.column := Some(Piece(Pawn, square.value.column, row, side, false, false, false))]
        else cells;
      ResetCellsEffect(next, i + 1, row, side);
    }
  }

  /** On a well-placed board the reset clears the flags of the side to
      move's en-passant pawns on its reset row and changes nothing else. */
  lemma ResetEffect(b: Board, current: Side, white: Side)
    requires WellPlaced(b)
    ensures forall r, c | 0 <= r < 8 && 0 <= c < 8 :: (ResetBoard(b, current, white)[r][c] ==
      if r == ResetRow(current, white) && EnPassantPawn(b[r][c], current)
      then Some(Piece(Pawn, c, r, current, false, false, false))
      else b[r][c])
  {
    ResetCellsEffect(b[ResetRow(current, white)], 0, ResetRow(current, white), current);
  }

  /** The reset keeps a state valid and keeps every king. */
  lemma ResetKeepsValid(pos: Position)
    requires Valid(pos)
    ensures Valid(ResetPosition(pos))
    ensures forall side :: HasKing(pos.board, side) ==> HasKing(ResetPosition(pos).board, side)
  {
    ResetEffect(pos.board, pos.current, pos.white);
    var nb := ResetPosition(pos).board;
    forall side | HasKing(pos.board, side)
      ensures HasKing(nb, side)
    {
      var row, column :| 0 <= row < 8 && 0 <= column < 8 && IsKing(pos.board[row][column], side);
      assert IsKing(nb[row][column], side);
    }
  }

  // ---------------------------------------------------------------------
  // Move effects (`_piece_shift`, `_evaluate_pawn_scenarios`,
  // `_evaluate_castling_scenarios`)

  /** `is_promotion`: the start square holds a pawn and the move ends on
      row 7 for a pawn of the white side, row 0 for any other pawn. */
  function IsPromotion(pos: Position, m: Move): bool {
    var square := pos.board[m.startRow][m.startColumn];
    square.Some? && square.value.kind == Pawn
    && m.endRow == (if square.value.owner == pos.white then 7 else 0)
  }

  /** `_piece_shift`: a copy of the board with the start square emptied and
      a fresh piece of the moved piece's kind and owner, with the given
      flags, on the end square. */
  function PieceShift(b: Board, m: Move, moved: Piece, flag: bool, enPassantable: bool): (r: Board)
    ensures forall row, column | 0 <= row < 8 && 0 <= column < 8 :: (r[row][column] ==
      if row == m.endRow && column == m.endColumn
      then Some(MakePiece(moved.kind, m.endColumn, m.endRow, moved.owner, flag, enPassantable))
      else if row == m.startRow && column == m.startColumn then None
      else b[row][column])
  {
    SetSquare(SetSquare(b, m.startColumn, m.startRow, None), m.endColumn, m.endRow,
              Some(MakePiece(moved.kind, m.endColumn, m.endRow, moved.owner, flag, enPassantable)))
  }

  /** The kinds a pawn may be promoted to. */
  const PromotionKinds: set<Kind> := {Knight, Bishop, Rook, Queen}

  /** The piece that makes the move: on a promotion, a new piece of the
      requested kind on the pawn's square, or IncorrectPieceType when no
      promotion kind is requested. */
  function Promoted(pos: Position, m: Move, moved: Piece, promotion: Option<Kind>): Result<Piece> {
    if !IsPromotion(pos, m) then Ok(moved)
    else if promotion.Some? && promotion.value in PromotionKinds
    then Ok(MakePiece(promotion.value, moved.column, moved.row, moved.owner, false, false))
    else Err(IncorrectPieceType)
  }

  /** The square beside the pawn holds an other player's pawn whose
      en-passant flag is set. */
  predicate CapturableEnPassant(square: Option<Piece>, mover: Side) {
    square.Some? && square.value.kind == Pawn && square.value.owner != mover && square.value.enPassant
  }

  /** `_evaluate_pawn_scenarios`: a two-row move leaves an en-passant pawn;
      a diagonal move takes an en-passant pawn beside, or else an other
      player's piece on the end square, or else fails; a straight step
      just shifts the pawn. */
  function PawnScenarios(pos: Position, m: Move, moved: Piece, promotion: Option<Kind>): Result<Board> {
    match Promoted(pos, m, moved, promotion)
    case Err(e) => Err(e)
    case Ok(piece) =>
      var rowShift := m.endRow - m.startRow;
      var columnShift := m.endColumn - m.startColumn;
      if rowShift == 2 || rowShift == -2 then Ok(PieceShift(pos.board, m, piece, false, true))
      else if columnShift == 1 || columnShift == -1 then
        if CapturableEnPassant(pos.board[piece.row][m.endColumn], piece.owner) then
          Ok(SetSquare(PieceShift(pos.board, m, piece, false, false), m.endColumn, piece.row, None))
        else if pos.board[m.endRow][m.endColumn].Some? && pos.board[m.endRow][m.endColumn].value.owner == pos.other then
          Ok(PieceShift(pos.board, m, piece, false, false))
        else Err(InvalidMove)
      else Ok(PieceShift(pos.board, m, piece, false, false))
  }

  /** The two king moves that make_move treats as castling. */
  predicate IsCastlingMove(m: Move) {
    m == Move(4, 0, 2, 0) || m == Move(4, 0, 6, 0)
  }

  /** The columns of row 0 from the king's column 4 to its end column. */
  predicate OnCastlingPath(m: Move, column: int) {
    if m.endColumn < 4 then m.endColumn <= column <= 4 else 4 <= column <= m.endColumn
  }

  /** `_evaluate_castling_scenarios`: fails when a square of the king's
      path is an end square of the waiting side's candidates on the board
      before the move; otherwise moves the corner rook next to column 4. */
  function CastlingScenarios(pos: Position, m: Move, b: Board): Result<Board>
    requires IsCastlingMove(m) && PawnsCanAdvance(pos.board, pos.other, pos.white)
  {
    var attacked := Destinations(BoardMoves(pos.board, pos.other, pos.white, 8));
    var direction := if m.endColumn < 4 then -1 else 1;
    if exists column | 0 <= column < 8 :: OnCastlingPath(m, column) && (column, 0) in attacked then
      Err(InvalidMove)
    else
      var corner := if direction == 1 then 7 else 0;
      Ok(SetSquare(SetSquare(b, 4 + direction, 0, Some(MakePiece(Rook, 4 + direction, 0, pos.current, false, false))),
                   corner, 0, None))
  }

  /** The new board of make_move before its check test (lines 291-308). */
  function MoveEffects(pos: Position, m: Move, promotion: Option<Kind>): Result<Board>
    requires Valid(pos) && m in Candidates(pos)
  {
    CandidateStart(pos.board, pos.current, pos.white, m);
    var moved := pos.board[m.startRow][m.startColumn].value;
    var shifted := if moved.kind == Pawn then PawnScenarios(pos, m, moved, promotion)
                   else Ok(PieceShift(pos.board, m, moved, false, false));
    if shifted.Ok? && moved.kind == King && IsCastlingMove(m) then CastlingScenarios(pos, m, shifted.value)
    else shifted
  }

  /** make_move after the reset: the move must be a candidate, its effects
      must succeed, and the side to move's king must not be attacked
      afterwards; the new state hands the move to the waiting side. */
  function ApplyReset(pos: Position, m: Move, promotion: Option<Kind>): Result<Position>
    requires Valid(pos) && HasKing(pos.board, pos.current)
  {
    if m !in Candidates(pos) then Err(InvalidMove)
    else
      var effects := MoveEffects(pos, m, promotion);
      if effects.Err? then Err(effects.error)
      else
        EffectsEvolve(pos, m, promotion);
        EvolvedKeepsValid(pos, effects.value);
        EffectsKeepKing(pos, m, promotion);
        if InCheck(Position(effects.value, pos.current, pos.other, pos.white)) then Err(InvalidMove)
        else Ok(Position(effects.value, pos.other, pos.current, pos.white))
  }

  /** `make_move`: the en-passant reset, then the move. */
  function Apply(pos: Position, m: Move, promotion: Option<Kind>): Result<Position>
    requires Valid(pos) && HasKing(pos.board, pos.current)
  {
    ResetKeepsValid(pos);
    ApplyReset(ResetPosition(pos), m, promotion)
  }

  // ---------------------------------------------------------------------
  // What the move effects keep

  /** A piece put down by the move: it belongs to the side to move, stores
      its square, has no first move left and, if a pawn, can look ahead. */
  predicate Placed(square: Option<Piece>, current: Side, white: Side, row: int, column: int) {
    square.Some? && square.value.owner == current
    && square.value.column == column && square.value.row == row
    && !square.value.firstMove
    && (square.value.kind == Pawn ==> InBounds(row + Forward(square.value, white)))
  }

  /** Every square of nb is as on b, empty, or holds a piece the move put down. */
  predicate Evolved(b: Board, nb: Board, current: Side, white: Side) {
    forall r, c | 0 <= r < 8 && 0 <= c < 8 ::
      nb[r][c] == b[r][c] || nb[r][c].None? || Placed(nb[r][c], current, white, r, c)
  }

  lemma EvolvedKeepsValid(pos: Position, nb: Board)
    requires Valid(pos) && Evolved(pos.board, nb, pos.current, pos.white)
    ensures Valid(Position(nb, pos.current, pos.other, pos.white))
    ensures Valid(Position(nb, pos.other, pos.current, pos.white))
  {
  }

  lemma SetEvolves(b: Board, nb: Board, column: Coord, row: Coord, square: Option<Piece>, current: Side, white: Side)
    requires Evolved(b, nb, current, white)
    requires square.None? || Placed(square, current, white, row, column)
    ensures Evolved(b, SetSquare(nb, column, row, square), current, white)
  {
  }

  lemma ShiftEvolves(b: Board, m: Move, piece: Piece, enPassantable: bool, current: Side, white: Side)
    requires piece.owner == current
    requires piece.kind == Pawn ==> InBounds(m.endRow + Forward(piece, white))
    ensures Evolved(b, PieceShift(b, m, piece, false, enPassantable), current, white)
  {
    var placed := MakePiece(piece.kind, m.endColumn, m.endRow, piece.owner, false, enPassantable);
    assert Forward(placed, white) == Forward(piece, white);
    assert Placed(Some(placed), current, white, m.endRow, m.endColumn);
  }

  /** The pawn generator only produces moves one row ahead, or two on a
      first move; a pawn that does not promote therefore lands short of its
      last row. */
  lemma PawnLandsShort(pos: Position, m: Move, moved: Piece)
    requires Valid(pos) && pos.board[m.startRow][m.startColumn] == Some(moved)
    requires moved.kind == Pawn && PawnCanAdvance(moved, pos.white)
    requires m in PieceMoves(pos.board, pos.white, moved)
    requires !IsPromotion(pos, m)
    ensures InBounds(m.endRow + Forward(moved, pos.white))
  {
    PiecesLemmas.PawnMovesChar(pos.board, pos.white, moved, m);
  }

  lemma PawnEvolves(pos: Position, m: Move, moved: Piece, promotion: Option<Kind>)
    requires Valid(pos) && pos.board[m.startRow][m.startColumn] == Some(moved)
    requires moved.kind == Pawn && moved.owner == pos.current && PawnCanAdvance(moved, pos.white)
    requires m in PieceMoves(pos.board, pos.white, moved)
    ensures PawnScenarios(pos, m, moved, promotion).Ok? ==>
      Evolved(pos.board, PawnScenarios(pos, m, moved, promotion).value, pos.current, pos.white)
  {
    var promoted := Promoted(pos, m, moved, promotion);
    if promoted.Ok? {
      var piece := promoted.value;
      if piece.kind == Pawn {
        PawnLandsShort(pos, m, moved);
      }
      var rowShift := m.endRow - m.startRow;
      if rowShift == 2 || rowShift == -2 {
        ShiftEvolves(pos.board, m, piece, true, pos.current, pos.white);
      } else {
        ShiftEvolves(pos.board, m, piece, false, pos.current, pos.white);
        SetEvolves(pos.board, PieceShift(pos.board, m, piece, false, false), m.endColumn, piece.row, None, pos.current, pos.white);
      }
    }
  }

  lemma CastlingEvolves(pos: Position, m: Move, b: Board)
    requires IsCastlingMove(m) && PawnsCanAdvance(pos.board, pos.other, pos.white)
    requires Evolved(pos.board, b, pos.current, pos.white)
    ensures CastlingScenarios(pos, m, b).Ok? ==> Evolved(pos.board, CastlingScenarios(pos, m, b).value, pos.current, pos.white)
  {
    var direction := if m.endColumn < 4 then -1 else 1;
    var rook := MakePiece(Rook, 4 + direction, 0, pos.current, false, false);
    SetEvolves(pos.board, b, 4 + direction, 0, Some(rook), pos.current, pos.white);
    SetEvolves(pos.board, SetSquare(b, 4 + direction, 0, Some(rook)), if direction == 1 then 7 else 0, 0, None, pos.current, pos.white);
  }

  lemma EffectsEvolve(pos: Position, m: Move, promotion: Option<Kind>)
    requires Valid(pos) && m in Candidates(pos)
    ensures MoveEffects(pos, m, promotion).Ok? ==>
      Evolved(pos.board, MoveEffects(pos, m, promotion).value, pos.current, pos.white)
  {
    CandidateStart(pos.board, pos.current, pos.white, m);
    var moved := pos.board[m.startRow][m.startColumn].value;
    var shifted := if moved.kind == Pawn then PawnScenarios(pos, m, moved, promotion)
                   else Ok(PieceShift(pos.board, m, moved, false, false));
    if moved.kind == Pawn {
      PawnEvolves(pos, m, moved, promotion);
    } else {
      ShiftEvolves(pos.board, m, moved, false, pos.current, pos.white);
    }
    if shifted.Ok? && moved.kind == King && IsCastlingMove(m) {
      CastlingEvolves(pos, m, shifted.value);
    }
  }

  /** A king of the mover that stands neither on the start nor on the end
      square of a pawn move keeps its square. */
  lemma PawnKeepsKing(pos: Position, m: Move, moved: Piece, promotion: Option<Kind>, row: Coord, column: Coord)
    requires IsKing(pos.board[row][column], moved.owner)
    requires (row, column) != (m.startRow, m.startColumn) && (row, column) != (m.endRow, m.endColumn)
    ensures PawnScenarios(pos, m, moved, promotion).Ok? ==>
      PawnScenarios(pos, m, moved, promotion).value[row][column] == pos.board[row][column]
  {
  }

  lemma EffectsKeepKing(pos: Position, m: Move, promotion: Option<Kind>)
    requires Valid(pos) && HasKing(pos.board, pos.current) && m in Candidates(pos)
    ensures MoveEffects(pos, m, promotion).Ok? ==> HasKing(MoveEffects(pos, m, promotion).value, pos.current)
  {
    CandidateStart(pos.board, pos.current, pos.white, m);
    var moved := pos.board[m.startRow][m.startColumn].value;
    PiecesLemmas.MoveShape(pos.board, pos.white, moved, m);
    if MoveEffects(pos, m, promotion).Ok? {
      var nb := MoveEffects(pos, m, promotion).value;
      if moved.kind == King {
        var shifted := PieceShift(pos.board, m, moved, false, false);
        assert IsKing(shifted[m.endRow][m.endColumn], pos.current);
        assert nb[m.endRow][m.endColumn] == shifted[m.endRow][m.endColumn];
        assert IsKing(nb[m.endRow][m.endColumn], pos.current);
      } else {
        var row, column :| 0 <= row < 8 && 0 <= column < 8 && IsKing(pos.board[row][column], pos.current);
        if moved.kind == Pawn {
          PawnKeepsKing(pos, m, moved, promotion, row, column);
        }
        assert nb[row][column] == pos.board[row][column];
      }
    }
  }

  // ---------------------------------------------------------------------
  // End of game (`is_finished`, `get_winner`)

  /** make_move's answer, without a promotion kind, for each move of `ms`. */
  function Outcomes(pos: Position, ms: seq<Move>): (os: seq<Result<Position>>)
    requires Valid(pos) && HasKing(pos.board, pos.current)
    ensures |os| == |ms|
    decreases |ms|
  {
    if ms == [] then [] else Outcomes(pos, ms[..|ms| - 1]) + [Apply(pos, ms[|ms| - 1], None)]
  }

  /** Answer j of Outcomes is make_move's answer for move j. */
  lemma {:induction false} OutcomeAt(pos: Position, ms: seq<Move>, j: int)
    requires Valid(pos) && HasKing(pos.board, pos.current)
    requires 0 <= j < |ms|
    ensures Outcomes(pos, ms)[j] == Apply(pos, ms[j], None)
    decreases |ms|
  {
    if j < |ms| - 1 {
      OutcomeAt(pos, ms[..|ms| - 1], j);
    }
  }

  /** Every answer of Outcomes is make_move's answer for its move. */
  lemma OutcomesEach(pos: Position, ms: seq<Move>)
    requires Valid(pos) && HasKing(pos.board, pos.current)
    ensures forall j | 0 <= j < |ms| :: Outcomes(pos, ms)[j] == Apply(pos, ms[j], None)
  {
    forall j | 0 <= j < |ms|
      ensures Outcomes(pos, ms)[j] == Apply(pos, ms[j], None)
    {
      OutcomeAt(pos, ms, j);
    }
  }

  /** The loop of is_finished from answer i on: the first move that
      make_move accepts answers false, InvalidMove moves on, any other
      error escapes. */
  function FinishedFrom(os: seq<Result<Position>>, i: nat): Result<bool>
    requires i <= |os|
    decreases |os| - i
  {
    if i == |os| then Ok(true)
    else match os[i]
      case Ok(_) => Ok(false)
      case Err(InvalidMove) => FinishedFrom(os, i + 1)
      case Err(e) => Err(e)
  }

  function Finished(pos: Position): Result<bool>
    requires Valid(pos) && HasKing(pos.board, pos.current)
  {
    FinishedFrom(Outcomes(pos, Candidates(pos)), 0)
  }

  /** The state is_finished leaves behind: make_move resets the board the
      first time it runs. */
  function AfterFinished(pos: Position): Position
    requires PawnsCanAdvance(pos.board, pos.current, pos.white)
  {
    if Candidates(pos) == [] then pos else ResetPosition(pos)
  }

  /** `get_winner`: the waiting side when the game is finished and the side
      to move is in check, no winner otherwise. */
  function Winner(pos: Position): Result<Option<Side>>
    requires Valid(pos) && HasKing(pos.board, pos.current)
  {
    match Finished(pos)
    case Err(e) => Err(e)
    case Ok(finished) =>
      ResetKeepsValid(pos);
      if finished && InCheck(AfterFinished(pos)) then Ok(Some(pos.other)) else Ok(None)
  }

  // ---------------------------------------------------------------------
  // Text (`__str__`)

  /** A square: the piece's text and a space, or three spaces. */
  function CellText(square: Option<Piece>, charOf: Side -> char): (s: string)
    ensures |s| == 3
  {
    if square.Some? then PieceText(square.value, charOf) + " " else "   "
  }

  /** The first n squares of a row. */
  function CellsText(cells: seq<Option<Piece>>, n: nat, charOf: Side -> char): (s: string)
    requires n <= |cells|
    ensures |s| == 3 * n
  {
    if n == 0 then "" else CellsText(cells, n - 1, charOf) + CellText(cells[n - 1], charOf)
  }

  /** The line printed for row r: its eight squares and a newline. */
  function Line(b: Board, r: Coord, charOf: Side -> char): (s: string)
    ensures |s| == 25
  {
    CellsText(b[r], 8, charOf) + "\n"
  }

  /** The lines of rows 7 down to r. */
  function RowsText(b: Board, r: nat, charOf: Side -> char): (s: string)
    requires r <= 8
    ensures |s| == 25 * (8 - r)
    decreases 8 - r
  {
    if r == 8 then "" else RowsText(b, r + 1, charOf) + Line(b, r, charOf)
  }

  /** `__str__`: the lines of rows 7 down to 0; `charOf` is the player's
      display character. */
  function Render(b: Board, charOf: Side -> char): (s: string)
    ensures |s| == 200
  {
    RowsText(b, 0, charOf)
  }

  lemma {:induction false} CellsTextLayout(cells: seq<Option<Piece>>, n: nat, charOf: Side -> char)
    requires n <= |cells|
    ensures forall c | 0 <= c < n :: CellsText(cells, n, charOf)[3 * c..3 * c + 3] == CellText(cells[c], charOf)
  {
    if n > 0 {
      CellsTextLayout(cells, n - 1, charOf);
      var prefix := CellsText(cells, n - 1, charOf);
      var s := prefix + CellText(cells[n - 1], charOf);
      forall c | 0 <= c < n
        ensures s[3 * c..3 * c + 3] == CellText(cells[c], charOf)
      {
        if c < n - 1 {
          assert s[3 * c..3 * c + 3] == prefix[3 * c..3 * c + 3];
        } else {
          assert s[3 * c..3 * c + 3] == CellText(cells[n - 1], charOf);
        }
      }
    }
  }

  lemma {:induction false} RowsTextLayout(b: Board, r: nat, charOf: Side -> char)
    requires r <= 8
    ensures forall row: Coord | r <= row :: RowsText(b, r, charOf)[25 * (7 - row)..25 * (8 - row)] == Line(b, row, charOf)
    decreases 8 - r
  {
    if r < 8 {
      RowsTextLayout(b, r + 1, charOf);
      var prefix := RowsText(b, r + 1, charOf);
      var s := prefix + Line(b, r, charOf);
      forall row: Coord | r <= row
        ensures s[25 * (7 - row)..25 * (8 - row)] == Line(b, row, charOf)
      {
        if r < row {
          assert s[25 * (7 - row)..25 * (8 - row)] == prefix[25 * (7 - row)..25 * (8 - row)];
        } else {
          assert s[25 * (7 - row)..25 * (8 - row)] == Line(b, r, charOf);
        }
      }
    }
  }

  /** The text of a board: the line of row r is the 25 characters from
      25 * (7 - r), each square of it three characters at 3 * c, and the
      line ends in a newline. */
  lemma RenderLayout(b: Board, charOf: Side -> char, r: Coord, c: Coord)
    ensures Render(b, charOf)[25 * (7 - r)..25 * (8 - r)] == Line(b, r, charOf)
    ensures Line(b, r, charOf)[3 * c..3 * c + 3] == CellText(b[r][c], charOf)
    ensures Line(b, r, charOf)[24] == '\n'
  {
    RowsTextLayout(b, 0, charOf);
    CellsTextLayout(b[r], 8, charOf);
    var cells := CellsText(b[r], 8, charOf);
    assert (cells + "\n")[3 * c..3 * c + 3] == cells[3 * c..3 * c + 3];
  }
}
