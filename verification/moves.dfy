/** The four-coordinate move value of chess_move.py. */
module Moves {
  import opened Types

  /** A move from (startColumn, startRow) to (endColumn, endRow). The
      fields are the accessors start_column() ... end_row(). */
  datatype Move = Move(startColumn: Coord, startRow: Coord, endColumn: Coord, endRow: Coord)

  /** The constructor: every coordinate must lie in 0..7. */
  function NewMove(startColumn: int, startRow: int, endColumn: int, endRow: int): (r: Result<Move>)
    ensures r.Ok? <==> InBounds(startColumn) && InBounds(startRow) && InBounds(endColumn) && InBounds(endRow)
    ensures r.Err? ==> r.error == CoordinatesOutOfBounds
    ensures r.Ok? ==> (r.value.startColumn == startColumn && r.value.startRow == startRow
                       && r.value.endColumn == endColumn && r.value.endRow == endRow)
  {
    if InBounds(startColumn) && InBounds(startRow) && InBounds(endColumn) && InBounds(endRow) then
      Ok(Move(startColumn, startRow, endColumn, endRow))
    else
      Err(CoordinatesOutOfBounds)
  }

  /** `__eq__`; `other` is None when the right-hand side is not a move. */
  function Equals(m: Move, other: Option<Move>): (b: bool)
    ensures b <==> other == Some(m)
  {
    match other
    case None => false
    case Some(o) =>
      m.startColumn == o.startColumn && m.startRow == o.startRow
      && m.endColumn == o.endColumn && m.endRow == o.endRow
  }

  /** Move equality is an equivalence relation on moves. */
  lemma EqualsIsEquivalence(a: Move, b: Move, c: Move)
    ensures Equals(a, Some(a))
    ensures Equals(a, Some(b)) <==> Equals(b, Some(a))
    ensures Equals(a, Some(b)) && Equals(b, Some(c)) ==> Equals(a, Some(c))
  {
  }

  /** `__repr__`, for instance "e2 move to e4". */
  function Repr(m: Move): (s: string)
    ensures |s| == 13
    ensures s[0] == FileChar(m.startColumn) && s[1] == RankChar(m.startRow)
    ensures s[2..11] == " move to "
    ensures s[11] == FileChar(m.endColumn) && s[12] == RankChar(m.endRow)
  {
    [FileChar(m.startColumn), RankChar(m.startRow)] + " move to "
    + [FileChar(m.endColumn), RankChar(m.endRow)]
  }

  /** The inverse of FileChar on 'a'..'h'. */
  function FileOf(ch: char): Option<Coord> {
    if 'a' <= ch <= 'h' then Some(ch as int - 'a' as int) else None
  }

  /** The inverse of RankChar on '1'..'8'. */
  function RankOf(ch: char): Option<Coord> {
    if '1' <= ch <= '8' then Some(ch as int - '1' as int) else None
  }

  /** Reads back the text that Repr writes. */
  function ParseRepr(s: string): Option<Move> {
    if |s| != 13 || s[2..11] != " move to " then None
    else
      match (FileOf(s[0]), RankOf(s[1]), FileOf(s[11]), RankOf(s[12]))
      case (Some(sc), Some(sr), Some(ec), Some(er)) => Some(Move(sc, sr, ec, er))
      case _ => None
  }

  /** Reading back the text of a move gives the move again. */
  lemma ReprRoundTrip(m: Move)
    ensures ParseRepr(Repr(m)) == Some(m)
  {
    var s := Repr(m);
    assert FileOf(s[0]) == Some(m.startColumn);
    assert RankOf(s[1]) == Some(m.startRow);
    assert FileOf(s[11]) == Some(m.endColumn);
    assert RankOf(s[12]) == Some(m.endRow);
  }

  /** Two moves with the same text are the same move. */
  lemma ReprInjective(a: Move, b: Move)
    ensures Repr(a) == Repr(b) ==> a == b
  {
    ReprRoundTrip(a);
    ReprRoundTrip(b);
  }
}
