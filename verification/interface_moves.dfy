/** The move value of chess_game_interface/chess_move.py: the same four
    coordinates as chess_move.py, as a subclass of the game framework's
    move class. */
module InterfaceMoves {
  import opened Types
  import Moves

  datatype ChessMove = ChessMove(startColumn: Coord, startRow: Coord, endColumn: Coord, endRow: Coord)

  /** Every coordinate of the tuple is in 0..7. */
  predicate AllOnBoard(coordinates: seq<int>) {
    forall i | 0 <= i < |coordinates| :: InBounds(coordinates[i])
  }

  /** The constructor: the four coordinates are checked together. */
  function NewMove(startColumn: int, startRow: int, endColumn: int, endRow: int): (r: Result<ChessMove>)
    ensures r.Ok? <==> InBounds(startColumn) && InBounds(startRow) && InBounds(endColumn) && InBounds(endRow)
    ensures r.Err? ==> r.error == CoordinatesOutOfBounds
    ensures r.Ok? ==> (r.value.startColumn == startColumn && r.value.startRow == startRow
                       && r.value.endColumn == endColumn && r.value.endRow == endRow)
  {
    var coordinates := [startColumn, startRow, endColumn, endRow];
    if AllOnBoard(coordinates) then
      assert InBounds(coordinates[0]) && InBounds(coordinates[1]) && InBounds(coordinates[2]) && InBounds(coordinates[3]);
      Ok(ChessMove(startColumn, startRow, endColumn, endRow))
    else
      Err(CoordinatesOutOfBounds)
  }

  /** `__eq__`: false against anything that is not a move (None), else
      coordinate by coordinate. */
  function Equals(m: ChessMove, other: Option<ChessMove>): (b: bool)
    ensures b <==> other == Some(m)
  {
    other.Some? && m.startColumn == other.value.startColumn && m.startRow == other.value.startRow
    && m.endColumn == other.value.endColumn && m.endRow == other.value.endRow
  }

  /** `__repr__`: "<file><rank> move to <file><rank>". */
  function Repr(m: ChessMove): (s: string)
    ensures |s| == 13 && s[2..11] == " move to "
    ensures s[0] == FileChar(m.startColumn) && s[1] == RankChar(m.startRow)
    ensures s[11] == FileChar(m.endColumn) && s[12] == RankChar(m.endRow)
  {
    [FileChar(m.startColumn), RankChar(m.startRow)] + " move to "
    + [FileChar(m.endColumn), RankChar(m.endRow)]
  }

  /** The same coordinates as a move of chess_move.py. */
  function ToCanonical(m: ChessMove): Moves.Move {
    Moves.Move(m.startColumn, m.startRow, m.endColumn, m.endRow)
  }

  /** Both revisions accept the same coordinates, build the same move,
      compare moves alike and print them alike. */
  lemma AgreesWithCanonical(startColumn: int, startRow: int, endColumn: int, endRow: int, m: ChessMove, other: Option<ChessMove>)
    ensures NewMove(startColumn, startRow, endColumn, endRow).Ok?
        <==> Moves.NewMove(startColumn, startRow, endColumn, endRow).Ok?
    ensures NewMove(startColumn, startRow, endColumn, endRow).Ok? ==>
      ToCanonical(NewMove(startColumn, startRow, endColumn, endRow).value)
        == Moves.NewMove(startColumn, startRow, endColumn, endRow).value
    ensures Equals(m, other)
        <==> Moves.Equals(ToCanonical(m), if other.Some? then Some(ToCanonical(other.value)) else None)
    ensures Repr(m) == Moves.Repr(ToCanonical(m))
  {
  }

  /** Distinct moves print differently, so the text identifies the move. */
  lemma ReprIdentifies(a: ChessMove, b: ChessMove)
    ensures Repr(a) == Repr(b) <==> a == b
  {
    Moves.ReprInjective(ToCanonical(a), ToCanonical(b));
    AgreesWithCanonical(0, 0, 0, 0, a, None);
    AgreesWithCanonical(0, 0, 0, 0, b, None);
  }
}
