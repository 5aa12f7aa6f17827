/** Values shared by every revision of the chess engine: sides, piece kinds,
    board coordinates and the three error kinds the engine raises. */
module Types {

  /** A player. The engine only ever compares players for equality. */
  type Side(==)

  datatype Option<+T> = None | Some(value: T)

  /** The three exceptions of chess_exceptions.py. */
  datatype Error = CoordinatesOutOfBounds | IncorrectPieceType | InvalidMove

  datatype Result<+T> = Ok(value: T) | Err(error: Error)

  datatype Kind = Pawn | Knight | Bishop | Rook | Queen | King

  /** A column or row index: column 0 is file a, row 0 is rank 1. */
  type Coord = x: int | 0 <= x < 8

  predicate InBounds(x: int) {
    0 <= x < 8
  }

  /** Concatenation regroups freely. */
  lemma AppendAssociates<T>(a: seq<T>, b: seq<T>, c: seq<T>)
    ensures a + b + c == a + (b + c)
  {
  }

  /** The letter of a file, 'a' for column 0. */
  function FileChar(column: Coord): char {
    ('a' as int + column) as char
  }

  /** The digit of a rank, '1' for row 0. */
  function RankChar(row: Coord): char {
    ('1' as int + row) as char
  }
}
