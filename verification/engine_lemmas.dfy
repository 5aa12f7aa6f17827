/** Properties of the position of chess_state.py: what the en-passant
    reset changes, what make_move accepts and what it produces, and what
    is_finished and get_winner answer. */
module EngineLemmas {
  import opened Types
  import opened Moves
  import opened Pieces
  import PiecesLemmas
  import opened Engine

  lemma BoardsEqual(a: Board, b: Board)
    requires forall r, c | 0 <= r < 8 && 0 <= c < 8 :: a[r][c] == b[r][c]
    ensures a == b
  {
    forall r | 0 <= r < 8
      ensures a[r] == b[r]
    {
      assert forall c | 0 <= c < 8 :: a[r][c] == b[r][c];
    }
  }

  // ---------------------------------------------------------------------
  // The initial layout

  /** A state built without a board: rows 0 and 1 hold the white side's
      back rank and pawns, rows 6 and 7 the other side's pawns and back
      rank, the middle is empty; every pawn still has its first move and
      every rook and king may castle. The state is valid and both sides
      have a king. */
  lemma InitialLayout(current: Side, other: Side, white: Option<Side>)
    requires current != other
    requires white.Some? ==> white.value == current || white.value == other
    ensures var pos := Init(current, other, white, None);
      Valid(pos) && HasKing(pos.board, current) && HasKing(pos.board, other)
    ensures var pos := Init(current, other, white, None);
      var black := if pos.white == current then other else current;
      forall r, c | 0 <= r < 8 && 0 <= c < 8 :: (
        var square := pos.board[r][c];
        (square.Some? <==> r in {0, 1, 6, 7})
        && (square.Some? ==> square.value.owner == (if r <= 1 then pos.white else black))
        && (square.Some? ==> square.value.kind == (if r == 1 || r == 6 then Pawn else BackRankKinds[c]))
        && (square.Some? ==> (square.value.firstMove <==> square.value.kind == Pawn))
        && (square.Some? ==> (square.value.canCastle <==> square.value.kind in {Rook, King}))
        && (square.Some? ==> !square.value.enPassant))
  {
    var pos := Init(current, other, white, None);
    var black := if pos.white == current then other else current;
    assert pos.board == InitialBoard(pos.white, black);
    assert IsKing(pos.board[0][4], pos.white) && IsKing(pos.board[7][4], black);
  }

  // ---------------------------------------------------------------------
  // The en-passant reset

  /** Resetting twice is resetting once: make_move may be called again
      and again on the same state, as is_finished does. */
  lemma ResetIdempotent(pos: Position)
    requires Valid(pos)
    ensures ResetPosition(ResetPosition(pos)) == ResetPosition(pos)
  {
    ResetKeepsValid(pos);
    var once := ResetPosition(pos);
    ResetEffect(pos.board, pos.current, pos.white);
    ResetEffect(once.board, pos.current, pos.white);
    BoardsEqual(ResetPosition(once).board, once.board);
  }

  /** make_move on a state whose board was already reset by an earlier
      call gives the same outcome as on the original state. */
  lemma ApplyIgnoresReset(pos: Position, m: Move, promotion: Option<Kind>)
    requires Valid(pos) && HasKing(pos.board, pos.current)
    ensures Valid(ResetPosition(pos)) && HasKing(ResetPosition(pos).board, pos.current)
    ensures Apply(ResetPosition(pos), m, promotion) == Apply(pos, m, promotion)
  {
    ResetKeepsValid(pos);
    ResetIdempotent(pos);
  }

  /** One round of is_finished's loop, on the state before the first
      make_move or after it: the state is usable, the next reset lands on
      the once-reset state, and make_move answers as on the original. */
  lemma RetryAfterReset(start: Position, pos: Position, m: Move)
    requires Valid(start) && HasKing(start.board, start.current)
    requires pos == start || pos == ResetPosition(start)
    ensures Valid(pos) && HasKing(pos.board, pos.current)
    ensures ResetPosition(pos) == ResetPosition(start)
    ensures Valid(ResetPosition(start)) && HasKing(ResetPosition(start).board, start.current)
    ensures Apply(pos, m, None) == Apply(start, m, None)
  {
    ApplyIgnoresReset(start, m, None);
    if pos != start {
      ResetIdempotent(start);
    }
  }

  /** The reset keeps every square's occupancy, kind, owner and castling
      right, and leaves the pieces of every other side alone. */
  lemma ResetKeepsShape(pos: Position)
    requires Valid(pos)
    ensures PiecesLemmas.SameShape(ResetPosition(pos).board, pos.board)
    ensures forall r, c, side | 0 <= r < 8 && 0 <= c < 8 && side != pos.current ::
      IsOwn(pos.board[r][c], side) ==> ResetPosition(pos).board[r][c] == pos.board[r][c]
    ensures forall r, c | 0 <= r < 8 && 0 <= c < 8 ::
      IsKing(pos.board[r][c], pos.current) ==> ResetPosition(pos).board[r][c] == pos.board[r][c]
  {
    ResetEffect(pos.board, pos.current, pos.white);
    var reset := ResetPosition(pos).board;
    forall r, c | 0 <= r < 8 && 0 <= c < 8
      ensures PiecesLemmas.SameShapeSquare(reset[r][c], pos.board[r][c])
    {
    }
  }

  /** is_promotion answers the same before and after the reset. */
  lemma IsPromotionIgnoresReset(pos: Position, m: Move)
    requires Valid(pos)
    ensures IsPromotion(ResetPosition(pos), m) == IsPromotion(pos, m)
  {
    ResetEffect(pos.board, pos.current, pos.white);
  }

  lemma {:induction false} RowMovesSameShape(a: Board, b: Board, side: Side, white: Side, row: Coord, n: nat)
    requires PawnsCanAdvance(a, side, white) && PawnsCanAdvance(b, side, white) && n <= 8
    requires PiecesLemmas.SameShape(a, b)
    requires forall r, c | 0 <= r < 8 && 0 <= c < 8 :: IsOwn(a[r][c], side) ==> a[r][c] == b[r][c]
    ensures RowMoves(a, side, white, row, n) == RowMoves(b, side, white, row, n)
  {
    if n > 0 {
      RowMovesSameShape(a, b, side, white, row, n - 1);
      assert PiecesLemmas.SameShapeSquare(a[row][n - 1], b[row][n - 1]);
      if IsOwn(a[row][n - 1], side) {
        PiecesLemmas.PieceMovesSameShape(a, b, white, a[row][n - 1].value);
      }
    }
  }

  /** The candidate lists of a side agree on boards that differ only in the
      flags of the other sides' pieces. */
  lemma {:induction false} BoardMovesSameShape(a: Board, b: Board, side: Side, white: Side, n: nat)
    requires PawnsCanAdvance(a, side, white) && PawnsCanAdvance(b, side, white) && n <= 8
    requires PiecesLemmas.SameShape(a, b)
    requires forall r, c | 0 <= r < 8 && 0 <= c < 8 :: IsOwn(a[r][c], side) ==> a[r][c] == b[r][c]
    ensures BoardMoves(a, side, white, n) == BoardMoves(b, side, white, n)
  {
    if n > 0 {
      BoardMovesSameShape(a, b, side, white, n - 1);
      RowMovesSameShape(a, b, side, white, n - 1, 8);
    }
  }

  lemma {:induction false} FindKingFromSame(a: Board, b: Board, side: Side, k: nat)
    requires k <= 64
    requires forall r, c | 0 <= r < 8 && 0 <= c < 8 :: IsKing(a[r][c], side) == IsKing(b[r][c], side)
    requires forall r, c | 0 <= r < 8 && 0 <= c < 8 :: IsKing(a[r][c], side) ==> a[r][c] == b[r][c]
    ensures FindKingFrom(a, side, k) == FindKingFrom(b, side, k)
    decreases 64 - k
  {
    if k < 64 {
      FindKingFromSame(a, b, side, k + 1);
    }
  }

  /** The check test answers the same before and after the reset: the
      waiting side's pieces and every king are untouched, and the
      generators ignore the flags the reset clears. */
  lemma InCheckIgnoresReset(pos: Position)
    requires Valid(pos) && HasKing(pos.board, pos.current) && pos.current != pos.other
    ensures Valid(ResetPosition(pos)) && HasKing(ResetPosition(pos).board, pos.current)
    ensures InCheck(ResetPosition(pos)) == InCheck(pos)
  {
    ResetKeepsValid(pos);
    ResetKeepsShape(pos);
    var reset := ResetPosition(pos);
    BoardMovesSameShape(reset.board, pos.board, pos.other, pos.white, 8);
    forall r, c | 0 <= r < 8 && 0 <= c < 8
      ensures IsKing(reset.board[r][c], pos.current) == IsKing(pos.board[r][c], pos.current)
    {
      assert PiecesLemmas.SameShapeSquare(reset.board[r][c], pos.board[r][c]);
    }
    FindKingFromSame(reset.board, pos.board, pos.current, 0);
  }

  // ---------------------------------------------------------------------
  // What make_move answers

  /** The effects of a candidate fail with IncorrectPieceType exactly on a
      promotion without a kind to promote to, and otherwise only with
      InvalidMove. */
  lemma EffectsErrors(pos: Position, m: Move, promotion: Option<Kind>)
    requires Valid(pos) && m in Candidates(pos)
    ensures MoveEffects(pos, m, promotion).Err? ==>
      MoveEffects(pos, m, promotion).error == InvalidMove || MoveEffects(pos, m, promotion).error == IncorrectPieceType
    ensures MoveEffects(pos, m, promotion) == Err(IncorrectPieceType) <==>
      IsPromotion(pos, m) && !(promotion.Some? && promotion.value in PromotionKinds)
  {
    CandidateStart(pos.board, pos.current, pos.white, m);
  }

  lemma ApplyResetErrors(pos: Position, m: Move, promotion: Option<Kind>)
    requires Valid(pos) && HasKing(pos.board, pos.current)
    ensures m !in Candidates(pos) ==> ApplyReset(pos, m, promotion) == Err(InvalidMove)
    ensures ApplyReset(pos, m, promotion).Err? ==>
      ApplyReset(pos, m, promotion).error == InvalidMove || ApplyReset(pos, m, promotion).error == IncorrectPieceType
    ensures ApplyReset(pos, m, promotion) == Err(IncorrectPieceType) <==>
      m in Candidates(pos) && IsPromotion(pos, m) && !(promotion.Some? && promotion.value in PromotionKinds)
  {
    if m in Candidates(pos) {
      EffectsErrors(pos, m, promotion);
    }
  }

  /** make_move fails only with InvalidMove or IncorrectPieceType, and with
      IncorrectPieceType exactly for a promoting candidate without a
      Knight, Bishop, Rook or Queen to promote to. A move outside the
      candidate list of the reset board is InvalidMove. */
  lemma ApplyErrors(pos: Position, m: Move, promotion: Option<Kind>)
    requires Valid(pos) && HasKing(pos.board, pos.current)
    ensures Valid(ResetPosition(pos))
    ensures m !in Candidates(ResetPosition(pos)) ==> Apply(pos, m, promotion) == Err(InvalidMove)
    ensures Apply(pos, m, promotion).Err? ==>
      Apply(pos, m, promotion).error == InvalidMove || Apply(pos, m, promotion).error == IncorrectPieceType
    ensures Apply(pos, m, promotion) == Err(IncorrectPieceType) <==>
      m in Candidates(ResetPosition(pos)) && IsPromotion(pos, m)
      && !(promotion.Some? && promotion.value in PromotionKinds)
  {
    ResetKeepsValid(pos);
    IsPromotionIgnoresReset(pos, m);
    ApplyResetErrors(ResetPosition(pos), m, promotion);
  }

  /** A successful make_move: the move was a candidate, the mover's king
      is not attacked on the new board, the turn passes to the waiting
      side, the white side is kept, and the new state is valid again. */
  lemma ApplyOk(pos: Position, m: Move, promotion: Option<Kind>)
    requires Valid(pos) && HasKing(pos.board, pos.current)
    requires Apply(pos, m, promotion).Ok?
    ensures Valid(ResetPosition(pos)) && m in Candidates(ResetPosition(pos))
    ensures var next := Apply(pos, m, promotion).value;
      next.current == pos.other && next.other == pos.current && next.white == pos.white
      && Valid(next) && HasKing(next.board, pos.current)
      && !InCheck(Position(next.board, pos.current, pos.other, pos.white))
  {
    ResetKeepsValid(pos);
    var reset := ResetPosition(pos);
    EffectsEvolve(reset, m, promotion);
    EvolvedKeepsValid(reset, MoveEffects(reset, m, promotion).value);
    EffectsKeepKing(reset, m, promotion);
  }

  // ---------------------------------------------------------------------
  // The board make_move produces

  /** An accepted move is a candidate of the reset state, and the new board
      is what its effects make of the reset board. */
  lemma ApplyBoard(pos: Position, m: Move, promotion: Option<Kind>)
    requires Valid(pos) && HasKing(pos.board, pos.current)
    requires Apply(pos, m, promotion).Ok?
    ensures Valid(ResetPosition(pos)) && m in Candidates(ResetPosition(pos))
    ensures MoveEffects(ResetPosition(pos), m, promotion) == Ok(Apply(pos, m, promotion).value.board)
    ensures IsOwn(ResetPosition(pos).board[m.startRow][m.startColumn], pos.current)
  {
    ResetKeepsValid(pos);
    var reset := ResetPosition(pos);
    CandidateOwn(reset.board, reset.current, reset.white, m);
  }

  /** A piece of the side to move on the reset board stores its square,
      and the reset left it there with its kind. */
  lemma CandidateMover(pos: Position, m: Move)
    requires Valid(pos) && IsOwn(ResetPosition(pos).board[m.startRow][m.startColumn], pos.current)
    ensures var b := ResetPosition(pos).board;
      b[m.startRow][m.startColumn].Some? && pos.board[m.startRow][m.startColumn].Some?
      && b[m.startRow][m.startColumn].value.owner == pos.current
      && b[m.startRow][m.startColumn].value.kind == pos.board[m.startRow][m.startColumn].value.kind
      && b[m.startRow][m.startColumn].value.column == m.startColumn
      && b[m.startRow][m.startColumn].value.row == m.startRow
      && (b[m.startRow][m.startColumn].value.kind != Pawn ==>
            b[m.startRow][m.startColumn] == pos.board[m.startRow][m.startColumn])
  {
    ResetKeepsValid(pos);
    ResetSquare(pos, m.startRow, m.startColumn);
  }

  lemma CandidateOwn(b: Board, side: Side, white: Side, m: Move)
    requires WellPlaced(b) && PawnsCanAdvance(b, side, white)
    requires m in BoardMoves(b, side, white, 8)
    ensures IsOwn(b[m.startRow][m.startColumn], side)
  {
    CandidateStart(b, side, white, m);
  }

  /** A pawn candidate changes row. */
  lemma PawnCandidateRows(b: Board, side: Side, white: Side, m: Move)
    requires WellPlaced(b) && PawnsCanAdvance(b, side, white)
    requires m in BoardMoves(b, side, white, 8)
    requires b[m.startRow][m.startColumn].Some? && b[m.startRow][m.startColumn].value.kind == Pawn
    ensures m.endRow != m.startRow
  {
    CandidateStart(b, side, white, m);
    PiecesLemmas.PawnMovesChar(b, white, b[m.startRow][m.startColumn].value, m);
  }

  /** One square after the reset. */
  lemma ResetSquare(pos: Position, r: Coord, c: Coord)
    requires Valid(pos)
    ensures ResetPosition(pos).board[r][c] ==
      if r == ResetRow(pos.current, pos.white) && EnPassantPawn(pos.board[r][c], pos.current)
      then Some(Piece(Pawn, c, r, pos.current, false, false, false))
      else pos.board[r][c]
  {
    ResetEffect(pos.board, pos.current, pos.white);
  }

  /** A move of a knight, bishop, rook or queen, or a king move other than
      castling, empties the start square and puts on the end square a fresh
      piece of the same kind and owner with its first move used up; every
      other square is as on the reset board. */
  lemma PlainMoveEffect(pos: Position, m: Move, promotion: Option<Kind>)
    requires Valid(pos) && HasKing(pos.board, pos.current)
    requires Apply(pos, m, promotion).Ok?
    requires pos.board[m.startRow][m.startColumn].Some?
    requires pos.board[m.startRow][m.startColumn].value.kind != Pawn
    requires !(pos.board[m.startRow][m.startColumn].value.kind == King && IsCastlingMove(m))
    ensures var kind := pos.board[m.startRow][m.startColumn].value.kind;
      var b := ResetPosition(pos).board;
      var nb := Apply(pos, m, promotion).value.board;
      forall r, c | 0 <= r < 8 && 0 <= c < 8 :: (nb[r][c] ==
        if r == m.endRow && c == m.endColumn then Some(MakePiece(kind, m.endColumn, m.endRow, pos.current, false, false))
        else if r == m.startRow && c == m.startColumn then None
        else b[r][c])
  {
    ApplyBoard(pos, m, promotion);
    CandidateMover(pos, m);
  }

  /** A pawn move empties the start square and puts on the end square a
      fresh piece of the side to move: a pawn, or on a promotion the
      requested kind, which then must be a Knight, Bishop, Rook or Queen.
      The piece is en-passant capturable exactly after a two-row advance.
      A diagonal step next to an other player's en-passant pawn also
      removes that pawn; every other square is as on the reset board. */
  lemma PawnMoveEffect(pos: Position, m: Move, promotion: Option<Kind>)
    requires Valid(pos) && HasKing(pos.board, pos.current)
    requires Apply(pos, m, promotion).Ok?
    requires pos.board[m.startRow][m.startColumn].Some?
    requires pos.board[m.startRow][m.startColumn].value.kind == Pawn
    ensures IsPromotion(pos, m) ==> promotion.Some? && promotion.value in PromotionKinds
    ensures var kind := if IsPromotion(pos, m) && promotion.Some? then promotion.value else Pawn;
      var twoRows := m.endRow - m.startRow == 2 || m.endRow - m.startRow == -2;
      var b := ResetPosition(pos).board;
      var nb := Apply(pos, m, promotion).value.board;
      var passant := !twoRows && (m.endColumn - m.startColumn == 1 || m.endColumn - m.startColumn == -1)
                     && CapturableEnPassant(b[m.startRow][m.endColumn], pos.current);
      forall r, c | 0 <= r < 8 && 0 <= c < 8 :: (nb[r][c] ==
        if r == m.endRow && c == m.endColumn then Some(MakePiece(kind, m.endColumn, m.endRow, pos.current, false, twoRows))
        else if r == m.startRow && c == m.startColumn then None
        else if passant && r == m.startRow && c == m.endColumn then None
        else b[r][c])
  {
    ApplyBoard(pos, m, promotion);
    CandidateMover(pos, m);
    IsPromotionIgnoresReset(pos, m);
    var reset := ResetPosition(pos);
    PawnCandidateRows(reset.board, reset.current, reset.white, m);
    var pawn := reset.board[m.startRow][m.startColumn].value;
    assert MoveEffects(reset, m, promotion) == PawnScenarios(reset, m, pawn, promotion);
    PawnScenariosEffect(reset, m, pawn, promotion);
  }

  /** The board of a pawn move that _evaluate_pawn_scenarios accepts,
      square by square. */
  lemma PawnScenariosEffect(pos: Position, m: Move, pawn: Piece, promotion: Option<Kind>)
    requires PawnScenarios(pos, m, pawn, promotion).Ok?
    requires pawn.kind == Pawn && pawn.row == m.startRow && pawn.owner == pos.current
    requires m.endRow != m.startRow
    ensures IsPromotion(pos, m) ==> promotion.Some? && promotion.value in PromotionKinds
    ensures var kind := if IsPromotion(pos, m) && promotion.Some? then promotion.value else Pawn;
      var twoRows := m.endRow - m.startRow == 2 || m.endRow - m.startRow == -2;
      var nb := PawnScenarios(pos, m, pawn, promotion).value;
      var passant := !twoRows && (m.endColumn - m.startColumn == 1 || m.endColumn - m.startColumn == -1)
                     && CapturableEnPassant(pos.board[m.startRow][m.endColumn], pos.current);
      forall r, c | 0 <= r < 8 && 0 <= c < 8 :: (nb[r][c] ==
        if r == m.endRow && c == m.endColumn then Some(MakePiece(kind, m.endColumn, m.endRow, pos.current, false, twoRows))
        else if r == m.startRow && c == m.startColumn then None
        else if passant && r == m.startRow && c == m.endColumn then None
        else pos.board[r][c])
  {
  }

  /** Castling moves the king from column 4 of row 0 to column 2 or 6,
      puts a fresh rook of the side to move beside column 4 on the king's
      way and empties the corner; every other square is as on the reset
      board. */
  lemma CastlingEffect(pos: Position, m: Move, promotion: Option<Kind>)
    requires Valid(pos) && HasKing(pos.board, pos.current)
    requires Apply(pos, m, promotion).Ok?
    requires IsCastlingMove(m) && pos.board[0][4].Some? && pos.board[0][4].value.kind == King
    ensures var direction := if m.endColumn < 4 then -1 else 1;
      var corner := if direction == 1 then 7 else 0;
      var b := ResetPosition(pos).board;
      var nb := Apply(pos, m, promotion).value.board;
      forall r, c | 0 <= r < 8 && 0 <= c < 8 :: (nb[r][c] ==
        if r == 0 && c == m.endColumn then Some(MakePiece(King, m.endColumn, 0, pos.current, false, false))
        else if r == 0 && c == 4 + direction then Some(MakePiece(Rook, 4 + direction, 0, pos.current, false, false))
        else if r == 0 && (c == 4 || c == corner) then None
        else b[r][c])
  {
    ApplyBoard(pos, m, promotion);
    CandidateMover(pos, m);
  }

  /** Castling is refused when a square of row 0 from column 4 to the
      king's end column, the king's own square included, is an end square
      of a candidate of the waiting side. */
  lemma CastlingUnderAttack(pos: Position, m: Move, promotion: Option<Kind>)
    requires Valid(pos) && HasKing(pos.board, pos.current) && pos.current != pos.other
    requires IsCastlingMove(m) && pos.board[0][4].Some? && pos.board[0][4].value.kind == King
    requires exists column | 0 <= column < 8 :: (OnCastlingPath(m, column)
      && (column, 0) in Destinations(BoardMoves(pos.board, pos.other, pos.white, 8)))
    ensures Apply(pos, m, promotion) == Err(InvalidMove)
  {
    ResetKeepsValid(pos);
    ResetKeepsShape(pos);
    var reset := ResetPosition(pos);
    ApplyResetErrors(reset, m, promotion);
    if m in Candidates(reset) {
      CandidateOwn(reset.board, reset.current, reset.white, m);
      CandidateMover(pos, m);
      BoardMovesSameShape(reset.board, pos.board, pos.other, pos.white, 8);
      var king := reset.board[m.startRow][m.startColumn].value;
      assert king.kind == King;
      assert CastlingScenarios(reset, m, PieceShift(reset.board, m, king, false, false)) == Err(InvalidMove);
      assert MoveEffects(reset, m, promotion) == Err(InvalidMove);
    }
  }

  /** A diagonal pawn step that finds neither an other player's en-passant
      pawn beside it nor a piece of the waiting side on its end square is
      refused (the generator offers it beside any other player's pawn). */
  lemma PawnDiagonalWithoutCapture(pos: Position, m: Move, promotion: Option<Kind>)
    requires Valid(pos) && HasKing(pos.board, pos.current)
    requires pos.board[m.startRow][m.startColumn].Some?
    requires pos.board[m.startRow][m.startColumn].value.kind == Pawn
    requires m.endColumn - m.startColumn == 1 || m.endColumn - m.startColumn == -1
    requires !(m.endRow - m.startRow == 2 || m.endRow - m.startRow == -2)
    requires !CapturableEnPassant(pos.board[m.startRow][m.endColumn], pos.current)
    requires !(pos.board[m.endRow][m.endColumn].Some? && pos.board[m.endRow][m.endColumn].value.owner == pos.other)
    requires IsPromotion(pos, m) ==> promotion.Some? && promotion.value in PromotionKinds
    ensures Apply(pos, m, promotion) == Err(InvalidMove)
  {
    ResetKeepsValid(pos);
    ResetEffect(pos.board, pos.current, pos.white);
    IsPromotionIgnoresReset(pos, m);
    var reset := ResetPosition(pos);
    ApplyResetErrors(reset, m, promotion);
    if m in Candidates(reset) {
      CandidateOwn(reset.board, reset.current, reset.white, m);
      CandidateMover(pos, m);
      var pawn := reset.board[m.startRow][m.startColumn].value;
      assert pawn.kind == Pawn && pawn.row == m.startRow && pawn.owner == pos.current;
      assert Promoted(reset, m, pawn, promotion).Ok?;
      assert !CapturableEnPassant(reset.board[m.startRow][m.endColumn], pos.current);
      assert PawnScenarios(reset, m, pawn, promotion) == Err(InvalidMove);
      assert MoveEffects(reset, m, promotion) == Err(InvalidMove);
    }
  }

  // ---------------------------------------------------------------------
  // is_finished and get_winner

  /** The loop of is_finished over a list of answers: true when every
      answer is InvalidMove, false when an accepted move comes before any
      other error, and that error otherwise; never InvalidMove itself. */
  lemma {:induction false} FinishedFromChar(os: seq<Result<Position>>, i: nat)
    requires i <= |os|
    ensures FinishedFrom(os, i) == Ok(true) <==> forall j | i <= j < |os| :: os[j] == Err(InvalidMove)
    ensures FinishedFrom(os, i) == Ok(false) <==>
      exists j | i <= j < |os| :: os[j].Ok? && forall k | i <= k < j :: os[k] == Err(InvalidMove)
    ensures FinishedFrom(os, i).Err? ==>
      exists j | i <= j < |os| :: os[j] == Err(FinishedFrom(os, i).error)
        && forall k | i <= k < j :: os[k] == Err(InvalidMove)
    ensures FinishedFrom(os, i) != Err(InvalidMove)
    decreases |os| - i
  {
    if i < |os| {
      FinishedFromChar(os, i + 1);
      if os[i] == Err(InvalidMove) {
        if FinishedFrom(os, i) == Ok(false) {
          var j :| i + 1 <= j < |os| && os[j].Ok? && forall k | i + 1 <= k < j :: os[k] == Err(InvalidMove);
          assert forall k | i <= k < j :: os[k] == Err(InvalidMove);
        }
        if FinishedFrom(os, i).Err? {
          var j :| i + 1 <= j < |os| && os[j] == Err(FinishedFrom(os, i + 1).error)
            && forall k | i + 1 <= k < j :: os[k] == Err(InvalidMove);
          assert forall k | i <= k < j :: os[k] == Err(InvalidMove);
        }
      }
    }
  }

  /** The loop of is_finished answers according to the first answer that
      is not InvalidMove. */
  lemma {:induction false} FinishedFromFirst(os: seq<Result<Position>>, i: nat, j: nat)
    requires i <= j < |os| && os[j] != Err(InvalidMove)
    requires forall k | i <= k < j :: os[k] == Err(InvalidMove)
    ensures os[j].Ok? ==> FinishedFrom(os, i) == Ok(false)
    ensures os[j].Err? ==> FinishedFrom(os, i) == Err(os[j].error)
    decreases j - i
  {
    if i < j {
      FinishedFromFirst(os, i + 1, j);
    }
  }

  /** What make_move answers for each candidate of is_finished. */
  lemma OutcomeErrors(pos: Position)
    requires Valid(pos) && HasKing(pos.board, pos.current)
    ensures Valid(ResetPosition(pos))
    ensures var ms := Candidates(pos);
      forall j | 0 <= j < |ms| :: (Apply(pos, ms[j], None).Err? ==>
        Apply(pos, ms[j], None).error == InvalidMove || Apply(pos, ms[j], None).error == IncorrectPieceType)
    ensures var ms := Candidates(pos);
      forall j | 0 <= j < |ms| :: (Apply(pos, ms[j], None) == Err(IncorrectPieceType) <==>
        ms[j] in Candidates(ResetPosition(pos)) && IsPromotion(pos, ms[j]))
  {
    ResetKeepsValid(pos);
    var ms := Candidates(pos);
    forall j | 0 <= j < |ms|
      ensures Apply(pos, ms[j], None).Err? ==>
        Apply(pos, ms[j], None).error == InvalidMove || Apply(pos, ms[j], None).error == IncorrectPieceType
      ensures Apply(pos, ms[j], None) == Err(IncorrectPieceType) <==>
        ms[j] in Candidates(ResetPosition(pos)) && IsPromotion(pos, ms[j])
    {
      ApplyErrors(pos, ms[j], None);
    }
  }

  /** is_finished answers true exactly when make_move rejects every
      candidate with InvalidMove. */
  lemma FinishedTrue(pos: Position)
    requires Valid(pos) && HasKing(pos.board, pos.current)
    ensures Finished(pos) == Ok(true) <==>
      forall m | m in Candidates(pos) :: Apply(pos, m, None) == Err(InvalidMove)
  {
    var ms := Candidates(pos);
    var os := Outcomes(pos, ms);
    OutcomesEach(pos, ms);
    FinishedFromChar(os, 0);
    if Finished(pos) == Ok(true) {
      forall m | m in ms
        ensures Apply(pos, m, None) == Err(InvalidMove)
      {
        var j :| 0 <= j < |ms| && ms[j] == m;
        assert os[j] == Err(InvalidMove);
      }
    }
    if forall m | m in ms :: Apply(pos, m, None) == Err(InvalidMove) {
      forall j | 0 <= j < |os|
        ensures os[j] == Err(InvalidMove)
      {
        assert ms[j] in ms;
      }
    }
  }

  /** is_finished answers false exactly when some candidate is accepted
      and every earlier one is rejected with InvalidMove. */
  lemma FinishedFalse(pos: Position)
    requires Valid(pos) && HasKing(pos.board, pos.current)
    ensures Finished(pos) == Ok(false) <==>
      exists i | 0 <= i < |Candidates(pos)| :: Apply(pos, Candidates(pos)[i], None).Ok?
        && forall k | 0 <= k < i :: Apply(pos, Candidates(pos)[k], None) == Err(InvalidMove)
  {
    var ms := Candidates(pos);
    var os := Outcomes(pos, ms);
    OutcomesEach(pos, ms);
    FinishedFromChar(os, 0);
  }

  /** The only error is_finished lets escape is IncorrectPieceType. */
  lemma FinishedErrorKind(pos: Position)
    requires Valid(pos) && HasKing(pos.board, pos.current)
    ensures Finished(pos).Err? ==> Finished(pos) == Err(IncorrectPieceType)
  {
    OutcomeErrors(pos);
    var ms := Candidates(pos);
    var os := Outcomes(pos, ms);
    OutcomesEach(pos, ms);
    FinishedFromChar(os, 0);
    if Finished(pos).Err? {
      var j :| 0 <= j < |os| && os[j] == Err(Finished(pos).error)
        && forall k | 0 <= k < j :: os[k] == Err(InvalidMove);
    }
  }

  /** The loop of is_finished escapes with an error exactly at the first
      answer that carries it, when every earlier answer is InvalidMove. */
  lemma FinishedFromError(os: seq<Result<Position>>, e: Error, marked: seq<bool>)
    requires e != InvalidMove && |marked| == |os|
    requires forall j | 0 <= j < |os| :: os[j] == Err(e) <==> marked[j]
    ensures FinishedFrom(os, 0) == Err(e) <==>
      exists i | 0 <= i < |os| :: marked[i] && forall k | 0 <= k < i :: os[k] == Err(InvalidMove)
  {
    FinishedFromChar(os, 0);
    if exists i | 0 <= i < |os| :: marked[i] && forall k | 0 <= k < i :: os[k] == Err(InvalidMove) {
      var i :| 0 <= i < |os| && marked[i] && forall k | 0 <= k < i :: os[k] == Err(InvalidMove);
      FinishedFromFirst(os, 0, i);
    }
  }

  /** is_finished lets IncorrectPieceType escape exactly when a promoting
      candidate comes before every accepted one. */
  lemma FinishedError(pos: Position)
    requires Valid(pos) && HasKing(pos.board, pos.current)
    ensures Valid(ResetPosition(pos))
    ensures var ms := Candidates(pos);
      Finished(pos) == Err(IncorrectPieceType) <==>
        exists i | 0 <= i < |ms| ::
          ms[i] in Candidates(ResetPosition(pos)) && IsPromotion(pos, ms[i])
          && forall k | 0 <= k < i :: Apply(pos, ms[k], None) == Err(InvalidMove)
  {
    OutcomeErrors(pos);
    var ms := Candidates(pos);
    var os := Outcomes(pos, ms);
    OutcomesEach(pos, ms);
    var promoting := seq(|ms|, j requires 0 <= j < |ms| =>
      ms[j] in Candidates(ResetPosition(pos)) && IsPromotion(pos, ms[j]));
    FinishedFromError(os, IncorrectPieceType, promoting);
  }

  /** get_winner: the waiting side wins exactly when the game is finished
      and the side to move is in check; a finished game without check
      (stalemate) and a game still on both have no winner. */
  lemma WinnerChar(pos: Position)
    requires Valid(pos) && HasKing(pos.board, pos.current) && pos.current != pos.other
    ensures Winner(pos) == Ok(Some(pos.other)) <==> Finished(pos) == Ok(true) && InCheck(pos)
    ensures Winner(pos) == Ok(None) <==> Finished(pos) == Ok(false) || (Finished(pos) == Ok(true) && !InCheck(pos))
    ensures Winner(pos).Err? <==> Finished(pos).Err?
  {
    InCheckIgnoresReset(pos);
  }
}
