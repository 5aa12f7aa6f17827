/** The state object of chess_state.py: a board the object updates in place
    (the en-passant reset of make_move writes into it) and the three sides
    fixed at construction. Each method is proved against the function of
    module Engine that describes it. */
module EngineState {
  import opened Types
  import opened Moves
  import opened Pieces
  import opened Engine
  import EngineLemmas

  class ChessState {
    var board: Board
    const current: Side
    const other: Side
    const white: Side

    /** The state as a value. */
    function Pos(): Position
      reads this
    {
      Position(board, current, other, white)
    }

    /** `__init__`: the given board, or the initial layout. */
    constructor (current: Side, other: Side, white: Option<Side>, board: Option<Board>)
      ensures Pos() == Init(current, other, white, board)
    {
      var pos := Init(current, other, white, board);
      this.current := current;
      this.other := other;
      this.white := pos.white;
      this.board := pos.board;
    }

    /** `get_moves`: row by row, square by square, the moves of every piece
        of the side to move. */
    method GetMoves() returns (ms: seq<Move>)
      requires PawnsCanAdvance(board, current, white)
      ensures ms == Candidates(Pos())
    {
      ms := [];
      for row := 0 to 8
        invariant ms == BoardMoves(board, current, white, row)
      {
        var rowMoves := GetRowMoves(row);
        ms := ms + rowMoves;
      }
    }

    /** The inner loop of `get_moves`: the squares of one row, left to right. */
    method GetRowMoves(row: Coord) returns (ms: seq<Move>)
      requires PawnsCanAdvance(board, current, white)
      ensures ms == RowMoves(board, current, white, row, 8)
    {
      ms := [];
      for column := 0 to 8
        invariant ms == RowMoves(board, current, white, row, column)
      {
        var pieceMoves := GetSquareMoves(row, column);
        ms := ms + pieceMoves;
      }
    }

    /** The moves of the piece on one square when it belongs to the side
        to move, none otherwise. */
    method GetSquareMoves(row: Coord, column: Coord) returns (pieceMoves: seq<Move>)
      requires PawnsCanAdvance(board, current, white)
      ensures pieceMoves == SquareMoves(board, current, white, row, column)
    {
      pieceMoves := [];
      var square := board[row][column];
      if square.Some? && square.value.owner == current {
        pieceMoves := Pieces.GetMoves(board, white, square.value);
      }
    }

    /** `_get_current_players_king`: the first king of the side to move in
        row-major order, or nothing. */
    method GetCurrentPlayersKing() returns (king: Option<Piece>)
      ensures king == FindKing(board, current)
      ensures king.Some? <==> HasKing(board, current)
    {
      for row := 0 to 8
        invariant FindKing(board, current) == FindKingFrom(board, current, 8 * row)
      {
        for column := 0 to 8
          invariant FindKing(board, current) == FindKingFrom(board, current, 8 * row + column)
        {
          assert (8 * row + column) / 8 == row && (8 * row + column) % 8 == column;
          var square := board[row][column];
          if square.Some? && square.value.kind == King && square.value.owner == current {
            FindKingChar(board, current);
            return square;
          }
        }
      }
      FindKingChar(board, current);
      return None;
    }

    /** `_is_in_check`: the square of the side to move's king is an end
        square of the candidates of the same board with the sides swapped. */
    method IsInCheck() returns (check: bool)
      requires HasKing(board, current) && PawnsCanAdvance(board, other, white)
      ensures check == InCheck(Pos())
    {
      var switched := new ChessState(other, current, Some(white), Some(board));
      var king := GetCurrentPlayersKing();
      var enemyMoves := switched.GetMoves();
      check := (king.value.column, king.value.row) in Destinations(enemyMoves);
    }

    /** `_reset_en_passantable_pawns`: on row 3 (row 4 when the side to move
        is not the white side), each en-passant pawn of the side to move is
        replaced, at the column it stores, by a pawn without flags; the
        row is walked while it is being written. */
    method ResetEnPassantablePawns()
      modifies this
      ensures board == ResetBoard(old(board), current, white)
    {
      var row := if current == white then 3 else 4;
      var i := 0;
      while i < 8
        invariant 0 <= i <= 8
        invariant board == old(board)[row := board[row]]
        invariant ResetCells(board[row], i, row, current) == ResetCells(old(board)[row], 0, row, current)
      {
        var square := board[row][i];
        if square.Some? && square.value.kind == Pawn && square.value.owner == current && square.value.enPassant {
          var column := square.value.column;
          board := board[row := board[row][column := Some(Piece(Pawn, column, row, current, false, false, false))]];
        }
        i := i + 1;
      }
    }

    /** `_evaluate_castling_scenarios`: the squares the waiting side can
        reach are those of its candidates on the board before the move. */
    method EvaluateCastlingScenarios(m: Move, b: Board) returns (r: Result<Board>)
      requires IsCastlingMove(m) && PawnsCanAdvance(board, other, white)
      ensures r == CastlingScenarios(Pos(), m, b)
    {
      var enemy := new ChessState(other, current, Some(white), Some(board));
      var enemyMoves := enemy.GetMoves();
      var attacked := Destinations(enemyMoves);
      var direction := if m.endColumn < 4 then -1 else 1;
      if exists column | 0 <= column < 8 :: OnCastlingPath(m, column) && (column, 0) in attacked {
        r := Err(InvalidMove);
      } else {
        var corner := if direction == 1 then 7 else 0;
        var nb := SetSquare(b, 4 + direction, 0, Some(MakePiece(Rook, 4 + direction, 0, current, false, false)));
        r := Ok(SetSquare(nb, corner, 0, None));
      }
    }

    /** `make_move`: resets this state's en-passant pawns in place (also when
        the move is then refused), and answers as Apply does on the state
        before the call: a new state, or the error. */
    method MakeMove(m: Move, promotion: Option<Kind>) returns (r: Result<ChessState>)
      requires Valid(Pos()) && HasKing(board, current)
      modifies this
      ensures board == ResetBoard(old(board), current, white)
      ensures r.Ok? <==> Apply(old(Pos()), m, promotion).Ok?
      ensures r.Err? ==> r.error == Apply(old(Pos()), m, promotion).error
      ensures r.Ok? ==> fresh(r.value) && r.value.Pos() == Apply(old(Pos()), m, promotion).value
    {
      ResetKeepsValid(Pos());
      ResetEnPassantablePawns();
      assert Pos() == ResetPosition(old(Pos()));
      assert Apply(old(Pos()), m, promotion) == ApplyReset(Pos(), m, promotion);
      var movedPiece := board[m.startRow][m.startColumn];
      var validMoves := GetMoves();
      if m !in validMoves {
        return Err(InvalidMove);
      }
      CandidateStart(board, current, white, m);
      var newBoard: Board;
      if movedPiece.value.kind == Pawn {
        var shifted := PawnScenarios(Pos(), m, movedPiece.value, promotion);
        if shifted.Err? {
          return Err(shifted.error);
        }
        newBoard := shifted.value;
      } else {
        newBoard := PieceShift(board, m, movedPiece.value, false, false);
      }
      if movedPiece.value.kind == King && IsCastlingMove(m) {
        var castled := EvaluateCastlingScenarios(m, newBoard);
        if castled.Err? {
          return Err(castled.error);
        }
        newBoard := castled.value;
      }
      assert MoveEffects(Pos(), m, promotion) == Ok(newBoard);
      EffectsEvolve(Pos(), m, promotion);
      EvolvedKeepsValid(Pos(), newBoard);
      EffectsKeepKing(Pos(), m, promotion);
      var checked := new ChessState(current, other, Some(white), Some(newBoard));
      var inCheck := checked.IsInCheck();
      if inCheck {
        return Err(InvalidMove);
      }
      var next := new ChessState(other, current, Some(white), Some(newBoard));
      return Ok(next);
    }

    /** `is_finished`: tries every candidate with make_move; false at the
        first accepted one, true when all are refused with InvalidMove;
        any other error escapes. The first call resets the board. */
    method IsFinished() returns (r: Result<bool>)
      requires Valid(Pos()) && HasKing(board, current)
      modifies this
      ensures r == Finished(old(Pos()))
      ensures Pos() == AfterFinished(old(Pos()))
    {
      var ms := GetMoves();
      ghost var start := Pos();
      ghost var outcomes := Outcomes(start, ms);
      assert Finished(start) == FinishedFrom(outcomes, 0);
      assert AfterFinished(start) == if ms == [] then start else ResetPosition(start);
      for i := 0 to |ms|
        invariant Pos() == if i == 0 then start else ResetPosition(start)
        invariant FinishedFrom(outcomes, 0) == FinishedFrom(outcomes, i)
      {
        OutcomeAt(start, ms, i);
        var outcome := TryCandidate(ms[i], start, outcomes[i]);
        if outcome.Ok? {
          return Ok(false);
        } else if outcome.error != InvalidMove {
          return Err(outcome.error);
        }
      }
      return Ok(true);
    }

    /** One round of is_finished's loop: make_move on candidate m, on the
        state before the first round or after an earlier one; it answers
        as on the state is_finished started from. */
    method TryCandidate(m: Move, ghost start: Position, ghost expected: Result<Position>)
      returns (outcome: Result<ChessState>)
      requires Valid(start) && HasKing(start.board, start.current)
      requires Pos() == start || Pos() == ResetPosition(start)
      requires expected == Apply(start, m, None)
      modifies this
      ensures Pos() == ResetPosition(start)
      ensures outcome.Ok? <==> expected.Ok?
      ensures outcome.Err? ==> outcome.error == expected.error
    {
      EngineLemmas.RetryAfterReset(start, Pos(), m);
      outcome := MakeMove(m, None);
    }

    /** `get_winner`: the waiting side when the game is finished and the
        side to move is in check on the board is_finished left behind. */
    method GetWinner() returns (r: Result<Option<Side>>)
      requires Valid(Pos()) && HasKing(board, current)
      modifies this
      ensures r == Winner(old(Pos()))
      ensures Pos() == AfterFinished(old(Pos()))
    {
      ResetKeepsValid(Pos());
      var finished := IsFinished();
      if finished.Err? {
        return Err(finished.error);
      }
      if finished.value {
        var check := IsInCheck();
        if check {
          return Ok(Some(other));
        }
      }
      return Ok(None);
    }
  }
}
