/** The early draft chess_classes.py: a piece carries an integer type tag,
    a move is a piece with the square it goes to, and the state generates
    candidates by dispatching on the tag. The draft's pieces are the
    canonical Piece values (the tag is the kind), so the draft generators
    are stated against the canonical ray and shift functions. */
module Draft {
  import opened Types
  import opened Moves
  import opened Pieces
  import PiecesLemmas
  import Engine

  // ---------------------------------------------------------------------
  // Type tags and pieces (`ChessPiece`)

  const PAWN := 0
  const KNIGHT := 1
  const BISHOP := 2
  const ROOK := 3
  const QUEEN := 4
  const KING := 5

  function TagOf(kind: Kind): int {
    match kind
    case Pawn => PAWN
    case Knight => KNIGHT
    case Bishop => BISHOP
    case Rook => ROOK
    case Queen => QUEEN
    case King => KING
  }

  function KindOfTag(tag: int): Kind
    requires 0 <= tag < 6
  {
    if tag == PAWN then Pawn
    else if tag == KNIGHT then Knight
    else if tag == BISHOP then Bishop
    else if tag == ROOK then Rook
    else if tag == QUEEN then Queen
    else King
  }

  /** The tags 0..5 and the six kinds correspond one to one. */
  lemma TagsAreKinds(kind: Kind, tag: int)
    ensures 0 <= TagOf(kind) < 6 && KindOfTag(TagOf(kind)) == kind
    ensures 0 <= tag < 6 ==> TagOf(KindOfTag(tag)) == tag
  {
  }

  /** `ChessPiece.__init__`: the square is checked first, then the tag;
      the flag is a pawn's first move and a rook's or king's castling
      right, as in the canonical constructors. */
  function NewDraftPiece(tag: int, column: int, row: int, owner: Side, flag: bool, enPassantable: bool): (r: Result<Piece>)
    ensures r.Ok? <==> InBounds(column) && InBounds(row) && 0 <= tag < 6
    ensures r.Err? ==> (r.error == CoordinatesOutOfBounds <==> !(InBounds(column) && InBounds(row)))
    ensures r.Err? ==> r.error == CoordinatesOutOfBounds || r.error == IncorrectPieceType
    ensures r.Ok? ==> TagOf(r.value.kind) == tag
    ensures 0 <= tag < 6 ==> r == NewPiece(KindOfTag(tag), column, row, owner, flag, enPassantable)
  {
    if !(InBounds(row) && InBounds(column)) then Err(CoordinatesOutOfBounds)
    else if !(0 <= tag < 6) then Err(IncorrectPieceType)
    else
      var kind := KindOfTag(tag);
      Ok(Piece(kind, column, row, owner, kind == Pawn && flag, kind == Pawn && enPassantable,
               (kind == Rook || kind == King) && flag))
  }

  /** `ChessPiece.__eq__`: only the tags are compared. */
  predicate PieceEquals(a: Piece, b: Piece) {
    TagOf(a.kind) == TagOf(b.kind)
  }

  /** Piece equality is an equivalence that identifies pieces of one kind
      wherever they stand and whoever owns them. */
  lemma PieceEqualsMeansSameKind(a: Piece, b: Piece)
    ensures PieceEquals(a, b) <==> a.kind == b.kind
  {
    TagsAreKinds(a.kind, TagOf(b.kind));
    TagsAreKinds(b.kind, TagOf(a.kind));
  }

  // ---------------------------------------------------------------------
  // Moves (`ChessMove`)

  /** A draft move: the piece and the column and row it goes to (the
      constructor checks nothing). */
  datatype DraftMove = DraftMove(piece: Piece, newColumn: int, newRow: int)

  /** `ChessMove.__eq__` as written: a non-move is unequal; otherwise the
      answer is a tuple of three comparisons, which is always true. */
  predicate MoveEqualsAsWritten(m: DraftMove, other: Option<DraftMove>) {
    other.Some?
  }

  /** Two moves of one piece to different squares compare equal. */
  lemma MoveEqualsAsWrittenIgnoresTarget(p: Piece)
    ensures MoveEqualsAsWritten(DraftMove(p, 0, 0), Some(DraftMove(p, 7, 7)))
    ensures DraftMove(p, 0, 0) != DraftMove(p, 7, 7)
  {
  }

  /** `ChessMove.__eq__` as intended: all three comparisons hold. */
  predicate MoveEquals(m: DraftMove, other: Option<DraftMove>) {
    other.Some? && PieceEquals(m.piece, other.value.piece)
    && m.newColumn == other.value.newColumn && m.newRow == other.value.newRow
  }

  /** The intended move equality is an equivalence, is false against a
      non-move, and tells apart moves to different squares. */
  lemma MoveEqualsIsEquivalence(a: DraftMove, b: DraftMove, c: DraftMove)
    ensures MoveEquals(a, Some(a))
    ensures MoveEquals(a, Some(b)) ==> MoveEquals(b, Some(a))
    ensures MoveEquals(a, Some(b)) && MoveEquals(b, Some(c)) ==> MoveEquals(a, Some(c))
    ensures !MoveEquals(a, None)
    ensures MoveEquals(a, Some(b)) <==>
      a.piece.kind == b.piece.kind && a.newColumn == b.newColumn && a.newRow == b.newRow
  {
    PieceEqualsMeansSameKind(a.piece, b.piece);
  }

  // ---------------------------------------------------------------------
  // Text (`__repr__`)

  function DigitChar(d: int): char
    requires 0 <= d < 10
  {
    (48 + d) as char
  }

  /** The decimal digits of n, without leading zeros. */
  function Digits(n: nat): (s: string)
    ensures 1 <= |s| && forall i | 0 <= i < |s| :: '0' <= s[i] <= '9'
    decreases n
  {
    if n < 10 then [DigitChar(n)] else Digits(n / 10) + [DigitChar(n % 10)]
  }

  /** Python's `f"{n}"` for an int. */
  function IntText(n: int): (s: string)
    ensures 1 <= |s|
  {
    if n < 0 then "-" + Digits(-n) else Digits(n)
  }

  function DigitsValue(s: string): int
    decreases |s|
  {
    if s == [] then 0 else 10 * DigitsValue(s[..|s| - 1]) + (s[|s| - 1] as int - 48)
  }

  lemma {:induction false} DigitsRoundTrip(n: nat)
    ensures DigitsValue(Digits(n)) == n
    decreases n
  {
    if n >= 10 {
      DigitsRoundTrip(n / 10);
      var s := Digits(n / 10) + [DigitChar(n % 10)];
      assert s[..|s| - 1] == Digits(n / 10);
    }
  }

  function ParseInt(s: string): int
    requires 1 <= |s|
  {
    if s[0] == '-' then -DigitsValue(s[1..]) else DigitsValue(s)
  }

  /** The decimal text of an int reads back as the int. */
  lemma IntTextRoundTrip(n: int)
    ensures ParseInt(IntText(n)) == n
  {
    if n < 0 {
      DigitsRoundTrip(-n);
      assert IntText(n)[1..] == Digits(-n);
    } else {
      DigitsRoundTrip(n);
    }
  }

  /** `ChessPiece.__repr__`: "<Kind> at <column> <row>" with the two
      coordinates as numbers. */
  function PieceRepr(p: Piece): (s: string)
    ensures s == KindName(p.kind) + " at " + [DigitChar(p.column), ' ', DigitChar(p.row)]
    ensures |s| == |KindName(p.kind)| + 7 && ParseInt(s[|s| - 3..|s| - 2]) == p.column
      && ParseInt(s[|s| - 1..]) == p.row
  {
    IntTextRoundTrip(p.column);
    IntTextRoundTrip(p.row);
    assert IntText(p.column) == [DigitChar(p.column)];
    assert IntText(p.row) == [DigitChar(p.row)];
    KindName(p.kind) + " at " + IntText(p.column) + " " + IntText(p.row)
  }

  /** `ChessMove.__repr__`: "<Kind> move to <column> <row>"; the two
      numbers read back as the target square. */
  function MoveRepr(m: DraftMove): (s: string)
    ensures var prefix := KindName(m.piece.kind) + " move to ";
      var n := |IntText(m.newColumn)|;
      |s| == |prefix| + n + 1 + |IntText(m.newRow)|
      && s[..|prefix|] == prefix && ParseInt(s[|prefix|..|prefix| + n]) == m.newColumn
      && s[|prefix| + n] == ' ' && ParseInt(s[|prefix| + n + 1..]) == m.newRow
  {
    IntTextRoundTrip(m.newColumn);
    IntTextRoundTrip(m.newRow);
    var prefix := KindName(m.piece.kind) + " move to ";
    SpacedParts(prefix, IntText(m.newColumn), IntText(m.newRow));
    prefix + IntText(m.newColumn) + " " + IntText(m.newRow)
  }

  /** The parts of `prefix + x + " " + y` sit where their lengths say. */
  lemma SpacedParts(prefix: string, x: string, y: string)
    ensures var s := prefix + x + " " + y;
      |s| == |prefix| + |x| + 1 + |y| && s[..|prefix|] == prefix
      && s[|prefix|..|prefix| + |x|] == x && s[|prefix| + |x|] == ' ' && s[|prefix| + |x| + 1..] == y
  {
    var s := prefix + x + " " + y;
    assert s[|prefix|..|prefix| + |x|] == x;
    assert s[|prefix| + |x| + 1..] == y;
  }

  // ---------------------------------------------------------------------
  // From target squares to draft moves

  /** The draft moves of piece p to the end squares of ms, in order. */
  function Lift(p: Piece, ms: seq<Move>): (r: seq<DraftMove>)
    ensures |r| == |ms|
  {
    if ms == [] then []
    else Lift(p, ms[..|ms| - 1]) + [DraftMove(p, ms[|ms| - 1].endColumn, ms[|ms| - 1].endRow)]
  }

  /** The i-th lifted move is p going to the end square of the i-th move. */
  lemma {:induction false} LiftIndex(p: Piece, ms: seq<Move>, i: int)
    requires 0 <= i < |ms|
    ensures Lift(p, ms)[i] == DraftMove(p, ms[i].endColumn, ms[i].endRow)
  {
    if i < |ms| - 1 {
      LiftIndex(p, ms[..|ms| - 1], i);
    }
  }

  lemma {:induction false} LiftAppend(p: Piece, a: seq<Move>, b: seq<Move>)
    ensures Lift(p, a + b) == Lift(p, a) + Lift(p, b)
    decreases |b|
  {
    if b != [] {
      assert (a + b)[..|a + b| - 1] == a + b[..|b| - 1];
      LiftAppend(p, a, b[..|b| - 1]);
    } else {
      assert a + b == a;
    }
  }

  /** A draft move is in the lifted list exactly when it is a move of p
      and some move of the list ends on its square. */
  lemma LiftMember(p: Piece, ms: seq<Move>, x: DraftMove)
    ensures x in Lift(p, ms) <==> x.piece == p && exists m | m in ms :: x.newColumn == m.endColumn && x.newRow == m.endRow
  {
    if x in Lift(p, ms) {
      var i :| 0 <= i < |ms| && Lift(p, ms)[i] == x;
      LiftIndex(p, ms, i);
      assert ms[i] in ms;
    }
    if x.piece == p && exists m | m in ms :: x.newColumn == m.endColumn && x.newRow == m.endRow {
      var m :| m in ms && x.newColumn == m.endColumn && x.newRow == m.endRow;
      var i :| 0 <= i < |ms| && ms[i] == m;
      LiftIndex(p, ms, i);
    }
  }

  /** The move from m's start to the square whose column is m's end row
      and whose row is m's end column. */
  function Transpose(m: Move): Move {
    Move(m.startColumn, m.startRow, m.endRow, m.endColumn)
  }

  /** Each move of ms transposed, in order. */
  function Transposed(ms: seq<Move>): (r: seq<Move>)
    ensures |r| == |ms|
  {
    seq(|ms|, i requires 0 <= i < |ms| => Transpose(ms[i]))
  }

  lemma TransposedAppend(a: seq<Move>, b: seq<Move>)
    ensures Transposed(a + b) == Transposed(a) + Transposed(b)
  {
    forall i | 0 <= i < |a + b|
      ensures Transposed(a + b)[i] == (Transposed(a) + Transposed(b))[i]
    {
      if i < |a| {
        assert (a + b)[i] == a[i];
      } else {
        assert (a + b)[i] == b[i - |a|];
      }
    }
  }

  /** A move is among the transposed moves exactly when its transpose is
      among the moves. */
  lemma TransposedMember(ms: seq<Move>, m: Move)
    ensures m in Transposed(ms) <==> Transpose(m) in ms
  {
    if m in Transposed(ms) {
      var i :| 0 <= i < |ms| && Transposed(ms)[i] == m;
      assert ms[i] == Transpose(m);
    }
    if Transpose(m) in ms {
      var i :| 0 <= i < |ms| && ms[i] == Transpose(m);
      assert Transposed(ms)[i] == m;
    }
  }

  // ---------------------------------------------------------------------
  // Pawn (`_get_moves_pawn`)

  /** The diagonal toward `column`: a capture of an other player's piece,
      or an en-passant step beside an other player's pawn whose flag is
      set (in the draft the flag is a plain attribute and filters). */
  function PawnDiagonal(b: Board, p: Piece, f: int, column: int): seq<Move>
    requires InBounds(p.row + f)
  {
    if !InBounds(column) then []
    else
      var diagonal := b[p.row + f][column];
      var beside := b[p.row][column];
      (if diagonal.Some? && diagonal.value.owner != p.owner then [Move(p.column, p.row, column, p.row + f)] else [])
      + (if beside.Some? && beside.value.kind == Pawn && beside.value.owner != p.owner
            && beside.value.enPassant && diagonal.None?
         then [Move(p.column, p.row, column, p.row + f)] else [])
  }

  /** The steps straight ahead: one row onto an empty square, and two rows
      on a first move when that square is empty. */
  function PawnAhead(b: Board, white: Side, p: Piece): seq<Move>
    requires PawnCanAdvance(p, white)
  {
    var f := Forward(p, white);
    (if b[p.row + f][p.column].None? then [Move(p.column, p.row, p.column, p.row + f)] else [])
    + (if p.firstMove && b[p.row + 2 * f][p.column].None? then [Move(p.column, p.row, p.column, p.row + 2 * f)] else [])
  }

  /** The squares the draft pawn goes to, as moves from its square. */
  function PawnMoves(b: Board, white: Side, p: Piece): seq<Move>
    requires PawnCanAdvance(p, white)
  {
    var f := Forward(p, white);
    PawnAhead(b, white, p) + PawnDiagonal(b, p, f, p.column + 1) + PawnDiagonal(b, p, f, p.column - 1)
  }

  /** The draft pawn's moves as written: every target is passed to
      `ChessMove(pawn, row, column)`, so the new column receives the target
      row and the new row the target column. */
  function PawnMovesAsWritten(b: Board, white: Side, p: Piece): seq<DraftMove>
    requires PawnCanAdvance(p, white)
  {
    Lift(p, Transposed(PawnMoves(b, white, p)))
  }

  /** As written, each draft pawn move names an intended target with its
      column and row exchanged, and every intended target is so named. */
  lemma PawnMovesAsWrittenNames(b: Board, white: Side, p: Piece, x: DraftMove)
    requires PawnCanAdvance(p, white)
    ensures x in PawnMovesAsWritten(b, white, p) <==>
      x.piece == p && exists m | m in PawnMoves(b, white, p) :: x.newColumn == m.endRow && x.newRow == m.endColumn
  {
    var ms := PawnMoves(b, white, p);
    LiftMember(p, Transposed(ms), x);
    if x in PawnMovesAsWritten(b, white, p) {
      var t :| t in Transposed(ms) && x.newColumn == t.endColumn && x.newRow == t.endRow;
      TransposedMember(ms, t);
      assert Transpose(t) in ms;
    }
    if x.piece == p && exists m | m in ms :: x.newColumn == m.endRow && x.newRow == m.endColumn {
      var m :| m in ms && x.newColumn == m.endRow && x.newRow == m.endColumn;
      TransposedMember(ms, Transpose(m));
      assert Transpose(m) in Transposed(ms);
    }
  }

  /** A lone white-side pawn on column 0, row 1: as written, its one-step
      move names column 2, row 0 (a square behind it) instead of column 0,
      row 2. */
  lemma PawnMovesAsWrittenSwapsSquare(white: Side)
    ensures var p := Piece(Pawn, 0, 1, white, true, false, false);
      PawnCanAdvance(p, white)
      && DraftMove(p, 2, 0) in PawnMovesAsWritten(PiecesLemmas.LoneBoard(p), white, p)
      && DraftMove(p, 2, 0) !in Lift(p, PawnMoves(PiecesLemmas.LoneBoard(p), white, p))
      && DraftMove(p, 0, 2) in Lift(p, PawnMoves(PiecesLemmas.LoneBoard(p), white, p))
  {
    var p := Piece(Pawn, 0, 1, white, true, false, false);
    var b := PiecesLemmas.LoneBoard(p);
    var ms := PawnMoves(b, white, p);
    assert ms[0] == Move(0, 1, 0, 2);
    LiftIndex(p, Transposed(ms), 0);
    assert PawnMovesAsWritten(b, white, p)[0] == DraftMove(p, 2, 0);
    LiftIndex(p, ms, 0);
    LiftMember(p, ms, DraftMove(p, 2, 0));
    PawnTargets(b, white, p, Move(0, 1, 2, 0));
  }

  /** The intended draft pawn: one row ahead onto an empty square, two rows
      ahead on a first move when that square is empty (the square between
      is not looked at), or one column aside and one row ahead onto an
      other player's piece, or onto an empty square beside an other
      player's en-passant pawn. */
  lemma PawnTargets(b: Board, white: Side, p: Piece, m: Move)
    requires PawnCanAdvance(p, white)
    ensures var f := Forward(p, white);
      m in PawnMoves(b, white, p) <==>
      m.startColumn == p.column && m.startRow == p.row &&
      ((m.endColumn == p.column && m.endRow == p.row + f && b[m.endRow][m.endColumn].None?)
       || (m.endColumn == p.column && m.endRow == p.row + 2 * f && p.firstMove && b[m.endRow][m.endColumn].None?)
       || (PiecesLemmas.Abs(m.endColumn - p.column) == 1 && m.endRow == p.row + f
           && ((b[m.endRow][m.endColumn].Some? && b[m.endRow][m.endColumn].value.owner != p.owner)
               || (b[p.row][m.endColumn].Some? && b[p.row][m.endColumn].value.kind == Pawn
                   && b[p.row][m.endColumn].value.owner != p.owner && b[p.row][m.endColumn].value.enPassant
                   && b[m.endRow][m.endColumn].None?))))
  {
    var f := Forward(p, white);
    assert PawnMoves(b, white, p) == PawnAhead(b, white, p) + PawnDiagonal(b, p, f, p.column + 1) + PawnDiagonal(b, p, f, p.column - 1);
    PawnAheadChar(b, white, p, m);
    PawnDiagonalChar(b, p, f, p.column + 1, m);
    PawnDiagonalChar(b, p, f, p.column - 1, m);
    assert PiecesLemmas.Abs(m.endColumn - p.column) == 1 <==> m.endColumn == p.column + 1 || m.endColumn == p.column - 1;
  }

  /** A step straight ahead goes one row onto an empty square, or two rows
      on a first move onto an empty square. */
  lemma PawnAheadChar(b: Board, white: Side, p: Piece, m: Move)
    requires PawnCanAdvance(p, white)
    ensures var f := Forward(p, white);
      m in PawnAhead(b, white, p) <==>
      m.startColumn == p.column && m.startRow == p.row &&
      ((m.endColumn == p.column && m.endRow == p.row + f && b[m.endRow][m.endColumn].None?)
       || (m.endColumn == p.column && m.endRow == p.row + 2 * f && p.firstMove && b[m.endRow][m.endColumn].None?))
  {
  }

  /** A draft diagonal step goes to `column` on the row ahead, onto an
      other player's piece or beside an other player's en-passant pawn. */
  lemma PawnDiagonalChar(b: Board, p: Piece, f: int, column: int, m: Move)
    requires InBounds(p.row + f)
    ensures m in PawnDiagonal(b, p, f, column) <==>
      m.startColumn == p.column && m.startRow == p.row && m.endColumn == column && m.endRow == p.row + f
      && ((b[m.endRow][m.endColumn].Some? && b[m.endRow][m.endColumn].value.owner != p.owner)
          || (b[p.row][m.endColumn].Some? && b[p.row][m.endColumn].value.kind == Pawn
              && b[p.row][m.endColumn].value.owner != p.owner && b[p.row][m.endColumn].value.enPassant
              && b[m.endRow][m.endColumn].None?))
  {
  }

  /** Every move of the draft pawn is a move of the canonical pawn, which
      differs only in offering the en-passant step without the flag. */
  lemma PawnWithinCanonical(b: Board, white: Side, p: Piece, m: Move)
    requires p.kind == Pawn && PawnCanAdvance(p, white)
    ensures m in PawnMoves(b, white, p) ==> m in Pieces.PieceMoves(b, white, p)
    ensures m in Pieces.PieceMoves(b, white, p) && m !in PawnMoves(b, white, p) ==>
      PiecesLemmas.Abs(m.endColumn - p.column) == 1 && b[m.endRow][m.endColumn].None?
      && b[p.row][m.endColumn].Some? && !b[p.row][m.endColumn].value.enPassant
  {
    PawnTargets(b, white, p, m);
    PiecesLemmas.PawnMovesChar(b, white, p, m);
  }

  /** `_get_moves_pawn`, each target passed as `ChessMove(pawn, row,
      column)` against the parameter order (piece, new column, new row). */
  method GetMovesPawn(b: Board, white: Side, p: Piece) returns (result: seq<DraftMove>)
    requires PawnCanAdvance(p, white)
    ensures result == PawnMovesAsWritten(b, white, p)
  {
    var f := if p.owner == white then 1 else -1;
    result := GetAhead(b, white, p);
    var right := GetDiagonal(b, p, f, p.column + 1);
    var left := GetDiagonal(b, p, f, p.column - 1);
    result := result + right + left;
    ghost var ahead, toRight, toLeft := PawnAhead(b, white, p), PawnDiagonal(b, p, f, p.column + 1), PawnDiagonal(b, p, f, p.column - 1);
    assert PawnMoves(b, white, p) == ahead + toRight + toLeft;
    TransposedAppend(ahead, toRight);
    TransposedAppend(ahead + toRight, toLeft);
    LiftAppend(p, Transposed(ahead), Transposed(toRight));
    LiftAppend(p, Transposed(ahead) + Transposed(toRight), Transposed(toLeft));
  }

  /** The steps straight ahead of `_get_moves_pawn`, as written. */
  method GetAhead(b: Board, white: Side, p: Piece) returns (result: seq<DraftMove>)
    requires PawnCanAdvance(p, white)
    ensures result == Lift(p, Transposed(PawnAhead(b, white, p)))
  {
    var f := if p.owner == white then 1 else -1;
    result := [];
    ghost var one: seq<Move> := [];
    if b[p.row + f][p.column].None? {
      result := result + [DraftMove(p, p.row + f, p.column)];
      one := [Move(p.column, p.row, p.column, p.row + f)];
    }
    assert result == Lift(p, Transposed(one));
    ghost var two: seq<Move> := [];
    if p.firstMove && b[p.row + 2 * f][p.column].None? {
      result := result + [DraftMove(p, p.row + 2 * f, p.column)];
      two := [Move(p.column, p.row, p.column, p.row + 2 * f)];
    }
    assert result == Lift(p, Transposed(one)) + Lift(p, Transposed(two));
    assert one + two == PawnAhead(b, white, p);
    TransposedAppend(one, two);
    LiftAppend(p, Transposed(one), Transposed(two));
  }

  /** One diagonal of `_get_moves_pawn`, as written. */
  method GetDiagonal(b: Board, p: Piece, f: int, column: int) returns (result: seq<DraftMove>)
    requires InBounds(p.row + f)
    ensures result == Lift(p, Transposed(PawnDiagonal(b, p, f, column)))
  {
    result := [];
    if 0 <= column < 8 {
      var diagonal := b[p.row + f][column];
      if diagonal.Some? && diagonal.value.owner != p.owner {
        result := result + [DraftMove(p, p.row + f, column)];
      }
      var beside := b[p.row][column];
      if beside.Some? && beside.value.kind == Pawn && beside.value.owner != p.owner
         && beside.value.enPassant && diagonal.None?
      {
        result := result + [DraftMove(p, p.row + f, column)];
      }
    }
  }

  // ---------------------------------------------------------------------
  // Knight and king (`_get_moves_knight`, `_get_moves_king`)

  /** The shift loop of the knight and of the king: a shifted square off
      the board is skipped, one not held by an own piece is emitted. */
  method GetMovesShifted(b: Board, p: Piece, shifts: seq<(int, int)>) returns (result: seq<DraftMove>)
    ensures result == Lift(p, ShiftMoves(b, p, shifts))
  {
    result := [];
    for i := 0 to |shifts|
      invariant result == Lift(p, ShiftMoves(b, p, shifts[..i]))
    {
      var newColumn, newRow := shifts[i].0 + p.column, shifts[i].1 + p.row;
      assert shifts[..i + 1][..i] == shifts[..i];
      LiftAppend(p, ShiftMoves(b, p, shifts[..i]), ShiftMove(b, p, shifts[i]));
      if !(0 <= newColumn < 8 && 0 <= newRow < 8) {
        continue;
      }
      if !(b[newRow][newColumn].Some? && b[newRow][newColumn].value.owner == p.owner) {
        result := result + [DraftMove(p, newColumn, newRow)];
      }
    }
    assert shifts[..|shifts|] == shifts;
  }

  // ---------------------------------------------------------------------
  // Bishop, rook and queen (`_get_moves_bishop`, `_get_moves_rook`,
  // `_get_moves_queen`)

  /** Adding a move at the end of a list adds its draft move at the end. */
  lemma LiftSnoc(p: Piece, ms: seq<Move>, m: Move)
    ensures Lift(p, ms + [m]) == Lift(p, ms) + [DraftMove(p, m.endColumn, m.endRow)]
  {
    assert (ms + [m])[..|ms|] == ms;
  }

  /** Along a direction of a bishop, once a square is off the board every
      further one is too, so the walk is complete. */
  lemma RayEnds(b: Board, p: Piece, dc: int, dr: int, d: int, done: seq<Move>)
    requires IsDirection((dc, dr)) && 1 <= d < 8 && !RayOnBoard(p, dc, dr, d)
    requires done + RayMoves(b, p, dc, dr, d) == RayMoves(b, p, dc, dr, 1)
    ensures done == RayMoves(b, p, dc, dr, 1)
  {
    PiecesLemmas.RayPastEdge(b, p, dc, dr, d, d);
    assert done + [] == done;
  }

  /** The bishop's walk along one direction: it ends at the board's edge
      (`break`) or after the first occupied square. */
  method GetBishopRay(b: Board, p: Piece, dc: int, dr: int) returns (result: seq<DraftMove>)
    requires IsDirection((dc, dr))
    ensures result == Lift(p, RayMoves(b, p, dc, dr, 1))
  {
    result := [];
    ghost var moves: seq<Move> := [];
    var distance := 1;
    while distance < 8
      invariant 1 <= distance <= 8
      invariant result == Lift(p, moves)
      invariant moves + RayMoves(b, p, dc, dr, distance) == RayMoves(b, p, dc, dr, 1)
    {
      var newColumn, newRow := RayColumn(p, dc, distance), RayRow(p, dr, distance);
      if !(0 <= newColumn < 8 && 0 <= newRow < 8) {
        RayEnds(b, p, dc, dr, distance, moves);
        break;
      }
      RayAdvance(b, p, dc, dr, distance, moves);
      var square := b[newRow][newColumn];
      if !(square.Some? && square.value.owner == p.owner) {
        LiftSnoc(p, moves, Move(p.column, p.row, newColumn, newRow));
        moves := moves + [Move(p.column, p.row, newColumn, newRow)];
        result := result + [DraftMove(p, newColumn, newRow)];
      }
      if square.Some? {
        break;
      }
      distance := distance + 1;
    }
    assert moves == RayMoves(b, p, dc, dr, 1);
  }

  /** The rook's walk along one direction: an off-board square is skipped
      (`continue`), and the walk ends after the first occupied square. */
  method GetRookRay(b: Board, p: Piece, dc: int, dr: int) returns (result: seq<DraftMove>)
    ensures result == Lift(p, RayMoves(b, p, dc, dr, 1))
  {
    result := [];
    ghost var moves: seq<Move> := [];
    var distance := 1;
    while distance < 8
      invariant 1 <= distance <= 8
      invariant result == Lift(p, moves)
      invariant moves + RayMoves(b, p, dc, dr, distance) == RayMoves(b, p, dc, dr, 1)
    {
      RayAdvance(b, p, dc, dr, distance, moves);
      var newColumn, newRow := RayColumn(p, dc, distance), RayRow(p, dr, distance);
      if !(0 <= newColumn < 8 && 0 <= newRow < 8) {
        distance := distance + 1;
        continue;
      }
      var square := b[newRow][newColumn];
      if !(square.Some? && square.value.owner == p.owner) {
        LiftSnoc(p, moves, Move(p.column, p.row, newColumn, newRow));
        moves := moves + [Move(p.column, p.row, newColumn, newRow)];
        result := result + [DraftMove(p, newColumn, newRow)];
      }
      if square.Some? {
        break;
      }
      distance := distance + 1;
    }
    assert moves == RayMoves(b, p, dc, dr, 1);
  }


  /** One more direction of a line walk, seen through Lift. */
  lemma LiftLinesStep(b: Board, p: Piece, directions: seq<(int, int)>, i: int)
    requires 0 <= i < |directions|
    ensures Lift(p, LineMoves(b, p, directions[..i + 1]))
         == Lift(p, LineMoves(b, p, directions[..i])) + Lift(p, RayMoves(b, p, directions[i].0, directions[i].1, 1))
  {
    assert directions[..i + 1][..i] == directions[..i];
    LiftAppend(p, LineMoves(b, p, directions[..i]), RayMoves(b, p, directions[i].0, directions[i].1, 1));
  }

  /** `_get_moves_bishop`: the four diagonals, in the order of
      `product((-1, 1), (-1, 1))`. */
  method GetMovesBishop(b: Board, p: Piece) returns (result: seq<DraftMove>)
    ensures result == Lift(p, LineMoves(b, p, BishopDirections))
  {
    result := [];
    for i := 0 to |BishopDirections|
      invariant result == Lift(p, LineMoves(b, p, BishopDirections[..i]))
    {
      var (dc, dr) := BishopDirections[i];
      var ray := GetBishopRay(b, p, dc, dr);
      LiftLinesStep(b, p, BishopDirections, i);
      result := result + ray;
    }
    assert BishopDirections[..|BishopDirections|] == BishopDirections;
  }

  /** `_get_moves_rook`: the four straight directions. */
  method GetMovesRook(b: Board, p: Piece) returns (result: seq<DraftMove>)
    ensures result == Lift(p, LineMoves(b, p, RookDirections))
  {
    result := [];
    for i := 0 to |RookDirections|
      invariant result == Lift(p, LineMoves(b, p, RookDirections[..i]))
    {
      var (dc, dr) := RookDirections[i];
      var ray := GetRookRay(b, p, dc, dr);
      LiftLinesStep(b, p, RookDirections, i);
      result := result + ray;
    }
    assert RookDirections[..|RookDirections|] == RookDirections;
  }

  /** The draft queen's targets: the bishop's, then the rook's. */
  function QueenMoves(b: Board, p: Piece): seq<Move> {
    LineMoves(b, p, BishopDirections) + LineMoves(b, p, RookDirections)
  }

  /** The draft queen reaches exactly the squares of the canonical queen,
      which walks the eight directions in another order. */
  lemma QueenSameTargets(b: Board, p: Piece, m: Move)
    ensures m in QueenMoves(b, p) <==> m in LineMoves(b, p, AdjacentShifts)
  {
    PiecesLemmas.LineMovesChar(b, p, BishopDirections, m);
    PiecesLemmas.LineMovesChar(b, p, RookDirections, m);
    PiecesLemmas.LineMovesChar(b, p, AdjacentShifts, m);
    if m in LineMoves(b, p, AdjacentShifts) {
      var dir :| dir in AdjacentShifts && m in RayMoves(b, p, dir.0, dir.1, 1);
      assert dir in BishopDirections || dir in RookDirections;
    }
  }

  method GetMovesQueen(b: Board, p: Piece) returns (result: seq<DraftMove>)
    ensures result == Lift(p, QueenMoves(b, p))
  {
    var diagonal := GetMovesBishop(b, p);
    var straight := GetMovesRook(b, p);
    LiftAppend(p, LineMoves(b, p, BishopDirections), LineMoves(b, p, RookDirections));
    result := diagonal + straight;
  }

  // ---------------------------------------------------------------------
  // Dispatch and candidates (`_get_moves_piece`, `get_moves`)

  /** The squares the draft moves of a piece name, as moves from its
      square, by its tag: a pawn's targets are transposed, as the source
      passes them; the king has no castling here. */
  function PieceMoves(b: Board, white: Side, p: Piece): seq<Move>
    requires Generable(p, white)
  {
    match p.kind
    case Pawn => Transposed(PawnMoves(b, white, p))
    case Knight => ShiftMoves(b, p, KnightShifts)
    case Bishop => LineMoves(b, p, BishopDirections)
    case Rook => LineMoves(b, p, RookDirections)
    case Queen => QueenMoves(b, p)
    case King => ShiftMoves(b, p, AdjacentShifts)
  }

  /** The draft generators against the canonical ones: the knight, bishop
      and rook agree move for move, the queen on the same squares, the king
      lacks only the castling moves; the pawn names the transposed squares
      of its intended targets, each of which is a canonical pawn target. */
  lemma PieceMovesAgainstCanonical(b: Board, white: Side, p: Piece, m: Move)
    requires Generable(p, white)
    ensures p.kind in {Knight, Bishop, Rook} ==> PieceMoves(b, white, p) == Pieces.PieceMoves(b, white, p)
    ensures p.kind == Queen ==> (m in PieceMoves(b, white, p) <==> m in Pieces.PieceMoves(b, white, p))
    ensures p.kind == King ==> (m in PieceMoves(b, white, p) <==>
      m in Pieces.PieceMoves(b, white, p) && !(p.column == 4 && m.startColumn == 4 && (m.endColumn == 2 || m.endColumn == 6)
                                                && m.endRow == p.row && m.startRow == p.row))
    ensures p.kind == Pawn ==> (m in PieceMoves(b, white, p) <==> Transpose(m) in PawnMoves(b, white, p))
    ensures p.kind == Pawn && m in PieceMoves(b, white, p) ==> Transpose(m) in Pieces.PieceMoves(b, white, p)
    ensures p.kind != Pawn && m in PieceMoves(b, white, p) ==> m in Pieces.PieceMoves(b, white, p)
  {
    match p.kind
    case Pawn =>
      TransposedMember(PawnMoves(b, white, p), m);
      PawnWithinCanonical(b, white, p, Transpose(m));
    case Knight =>
    case Bishop =>
    case Rook =>
    case Queen => QueenSameTargets(b, p, m);
    case King =>
      PiecesLemmas.ShiftMovesChar(b, p, AdjacentShifts, m);
  }

  /** `_get_moves_piece`: the generator the tag selects. */
  method GetMovesPiece(b: Board, white: Side, p: Piece) returns (result: seq<DraftMove>)
    requires Generable(p, white)
    ensures result == Lift(p, PieceMoves(b, white, p))
  {
    var tag := TagOf(p.kind);
    if tag == PAWN {
      result := GetMovesPawn(b, white, p);
    } else if tag == KNIGHT {
      result := GetMovesShifted(b, p, KnightShifts);
    } else if tag == BISHOP {
      result := GetMovesBishop(b, p);
    } else if tag == ROOK {
      result := GetMovesRook(b, p);
    } else if tag == QUEEN {
      result := GetMovesQueen(b, p);
    } else {
      result := GetMovesShifted(b, p, AdjacentShifts);
    }
  }

  function SquareMoves(b: Board, side: Side, white: Side, row: Coord, column: Coord): seq<DraftMove>
    requires Engine.PawnsCanAdvance(b, side, white)
  {
    if IsOwn(b[row][column], side) then Lift(b[row][column].value, PieceMoves(b, white, b[row][column].value)) else []
  }

  function RowMoves(b: Board, side: Side, white: Side, row: Coord, n: nat): seq<DraftMove>
    requires Engine.PawnsCanAdvance(b, side, white) && n <= 8
  {
    if n == 0 then [] else RowMoves(b, side, white, row, n - 1) + SquareMoves(b, side, white, row, n - 1)
  }

  function BoardMoves(b: Board, side: Side, white: Side, n: nat): seq<DraftMove>
    requires Engine.PawnsCanAdvance(b, side, white) && n <= 8
  {
    if n == 0 then [] else BoardMoves(b, side, white, n - 1) + RowMoves(b, side, white, n - 1, 8)
  }

  /** The piece of `side` on (row, column) has x among its draft moves. */
  predicate Generates(b: Board, side: Side, white: Side, row: int, column: int, x: DraftMove)
    requires Engine.PawnsCanAdvance(b, side, white)
  {
    0 <= row < 8 && 0 <= column < 8 && IsOwn(b[row][column], side)
    && x in Lift(b[row][column].value, PieceMoves(b, white, b[row][column].value))
  }

  lemma RowMovesChar(b: Board, side: Side, white: Side, row: Coord, n: nat, x: DraftMove)
    requires Engine.PawnsCanAdvance(b, side, white) && n <= 8
    ensures x in RowMoves(b, side, white, row, n) <==>
      exists column :: column < n && Generates(b, side, white, row, column, x)
  {
    if x in RowMoves(b, side, white, row, n) {
      var column := RowMovesSound(b, side, white, row, n, x);
    }
    if exists column :: column < n && Generates(b, side, white, row, column, x) {
      var column :| column < n && Generates(b, side, white, row, column, x);
      RowMovesComplete(b, side, white, row, n, column, x);
    }
  }

  /** A move of the first n squares of a row comes from one of them. */
  lemma {:induction false} RowMovesSound(b: Board, side: Side, white: Side, row: Coord, n: nat, x: DraftMove)
    returns (column: int)
    requires Engine.PawnsCanAdvance(b, side, white) && n <= 8 && x in RowMoves(b, side, white, row, n)
    ensures column < n && Generates(b, side, white, row, column, x)
  {
    assert n > 0;
    assert RowMoves(b, side, white, row, n) == RowMoves(b, side, white, row, n - 1) + SquareMoves(b, side, white, row, n - 1);
    if x in SquareMoves(b, side, white, row, n - 1) {
      column := n - 1;
    } else {
      column := RowMovesSound(b, side, white, row, n - 1, x);
    }
  }

  /** A move generated by one of the first n squares of a row is among their moves. */
  lemma {:induction false} RowMovesComplete(b: Board, side: Side, white: Side, row: Coord, n: nat, column: int, x: DraftMove)
    requires Engine.PawnsCanAdvance(b, side, white) && n <= 8
    requires column < n && Generates(b, side, white, row, column, x)
    ensures x in RowMoves(b, side, white, row, n)
  {
    assert RowMoves(b, side, white, row, n) == RowMoves(b, side, white, row, n - 1) + SquareMoves(b, side, white, row, n - 1);
    if column < n - 1 {
      RowMovesComplete(b, side, white, row, n - 1, column, x);
    }
  }

  /** The draft candidate list holds exactly the draft moves of the pieces
      of the side. */
  lemma BoardMovesChar(b: Board, side: Side, white: Side, n: nat, x: DraftMove)
    requires Engine.PawnsCanAdvance(b, side, white) && n <= 8
    ensures x in BoardMoves(b, side, white, n) <==>
      exists row, column :: row < n && Generates(b, side, white, row, column, x)
  {
    if x in BoardMoves(b, side, white, n) {
      var row, column := BoardMovesSound(b, side, white, n, x);
    }
    if exists row, column :: row < n && Generates(b, side, white, row, column, x) {
      var row, column :| row < n && Generates(b, side, white, row, column, x);
      BoardMovesComplete(b, side, white, n, row, column, x);
    }
  }

  /** A move of the first n rows comes from a square of one of them. */
  lemma {:induction false} BoardMovesSound(b: Board, side: Side, white: Side, n: nat, x: DraftMove)
    returns (row: int, column: int)
    requires Engine.PawnsCanAdvance(b, side, white) && n <= 8 && x in BoardMoves(b, side, white, n)
    ensures row < n && Generates(b, side, white, row, column, x)
  {
    assert n > 0;
    assert BoardMoves(b, side, white, n) == BoardMoves(b, side, white, n - 1) + RowMoves(b, side, white, n - 1, 8);
    if x in RowMoves(b, side, white, n - 1, 8) {
      row := n - 1;
      column := RowMovesSound(b, side, white, n - 1, 8, x);
    } else {
      row, column := BoardMovesSound(b, side, white, n - 1, x);
    }
  }

  /** A move generated by a square of the first n rows is among their moves. */
  lemma {:induction false} BoardMovesComplete(b: Board, side: Side, white: Side, n: nat, row: int, column: int, x: DraftMove)
    requires Engine.PawnsCanAdvance(b, side, white) && n <= 8
    requires row < n && Generates(b, side, white, row, column, x)
    ensures x in BoardMoves(b, side, white, n)
  {
    assert BoardMoves(b, side, white, n) == BoardMoves(b, side, white, n - 1) + RowMoves(b, side, white, n - 1, 8);
    if row == n - 1 {
      RowMovesComplete(b, side, white, n - 1, 8, column, x);
    } else {
      BoardMovesComplete(b, side, white, n - 1, row, column, x);
    }
  }

  /** Draft move x names the end square of m as the source builds it:
      column and row exchanged for a pawn, in order for the other pieces. */
  predicate NamesTarget(x: DraftMove, m: Move) {
    if x.piece.kind == Pawn then x.newColumn == m.endRow && x.newRow == m.endColumn
    else x.newColumn == m.endColumn && x.newRow == m.endRow
  }

  /** Every draft move of a piece names, as the source builds it, the end
      square of a canonical move of the same piece. */
  lemma DraftMoveWithinCanonical(b: Board, white: Side, p: Piece, x: DraftMove)
    requires Generable(p, white)
    requires x in Lift(p, PieceMoves(b, white, p))
    ensures x.piece == p
    ensures exists m | m in Pieces.PieceMoves(b, white, p) ::
      m.startColumn == p.column && m.startRow == p.row && NamesTarget(x, m)
  {
    LiftMember(p, PieceMoves(b, white, p), x);
    var m :| m in PieceMoves(b, white, p) && x.newColumn == m.endColumn && x.newRow == m.endRow;
    PieceMovesAgainstCanonical(b, white, p, m);
    if p.kind == Pawn {
      PiecesLemmas.MoveShape(b, white, p, Transpose(m));
      assert NamesTarget(x, Transpose(m));
    } else {
      PiecesLemmas.MoveShape(b, white, p, m);
    }
  }

  /** Every draft candidate from the first n rows (all of them when n is
      8) names, as the source builds it, the end square of a canonical
      candidate from the piece's square. */
  lemma CandidatesWithinCanonical(b: Board, side: Side, white: Side, n: nat, x: DraftMove)
    requires Engine.PawnsCanAdvance(b, side, white) && n <= 8
    requires x in BoardMoves(b, side, white, n)
    ensures exists m | m in Engine.BoardMoves(b, side, white, n) ::
      m.startColumn == x.piece.column && m.startRow == x.piece.row && NamesTarget(x, m)
  {
    BoardMovesChar(b, side, white, n, x);
    var row, column :| row < n && Generates(b, side, white, row, column, x);
    var p := b[row][column].value;
    DraftMoveWithinCanonical(b, white, p, x);
    var m :| m in Pieces.PieceMoves(b, white, p) && m.startColumn == p.column && m.startRow == p.row
      && NamesTarget(x, m);
    assert Engine.Generates(b, side, white, row, column, m);
    Engine.BoardMovesChar(b, side, white, n, m);
  }

  /** `get_moves`: row by row, square by square, the draft moves of every
      piece of the side to move. */
  method GetMoves(pos: Engine.Position) returns (result: seq<DraftMove>)
    requires Engine.PawnsCanAdvance(pos.board, pos.current, pos.white)
    ensures result == BoardMoves(pos.board, pos.current, pos.white, 8)
  {
    result := [];
    for row := 0 to 8
      invariant result == BoardMoves(pos.board, pos.current, pos.white, row)
    {
      var rowMoves := GetRowMoves(pos, row);
      result := result + rowMoves;
    }
  }

  /** The inner loop of `get_moves`: the squares of one row, left to right. */
  method GetRowMoves(pos: Engine.Position, row: Coord) returns (result: seq<DraftMove>)
    requires Engine.PawnsCanAdvance(pos.board, pos.current, pos.white)
    ensures result == RowMoves(pos.board, pos.current, pos.white, row, 8)
  {
    result := [];
    for column := 0 to 8
      invariant result == RowMoves(pos.board, pos.current, pos.white, row, column)
    {
      var pieceMoves := GetSquareMoves(pos, row, column);
      result := result + pieceMoves;
    }
  }

  method GetSquareMoves(pos: Engine.Position, row: Coord, column: Coord) returns (pieceMoves: seq<DraftMove>)
    requires Engine.PawnsCanAdvance(pos.board, pos.current, pos.white)
    ensures pieceMoves == SquareMoves(pos.board, pos.current, pos.white, row, column)
  {
    pieceMoves := [];
    var piece := pos.board[row][column];
    if piece.Some? && piece.value.owner == pos.current {
      pieceMoves := GetMovesPiece(pos.board, pos.white, piece.value);
    }
  }

  // ---------------------------------------------------------------------
  // Default layout (`ChessState.__init__`)

  const BackRankTags: seq<int> := [ROOK, KNIGHT, BISHOP, QUEEN, KING, BISHOP, KNIGHT, ROOK]

  function DraftPiece(tag: int, column: Coord, row: Coord, owner: Side): (p: Piece)
    requires 0 <= tag < 6
    ensures NewDraftPiece(tag, column, row, owner, true, false) == Ok(p)
  {
    NewDraftPiece(tag, column, row, owner, true, false).value
  }

  function InitialBoard(white: Side, black: Side): Board {
    [seq(8, (c: int) requires 0 <= c < 8 => Some(DraftPiece(BackRankTags[c], c, 0, white))),
     seq(8, (c: int) requires 0 <= c < 8 => Some(DraftPiece(PAWN, c, 1, white))),
     Engine.EmptyRow(), Engine.EmptyRow(), Engine.EmptyRow(), Engine.EmptyRow(),
     seq(8, (c: int) requires 0 <= c < 8 => Some(DraftPiece(PAWN, c, 6, black))),
     seq(8, (c: int) requires 0 <= c < 8 => Some(DraftPiece(BackRankTags[c], c, 7, black)))]
  }

  /** The draft builds the same initial board as the canonical engine. */
  lemma InitialBoardAgrees(white: Side, black: Side)
    ensures InitialBoard(white, black) == Engine.InitialBoard(white, black)
  {
    var d := InitialBoard(white, black);
    var e := Engine.InitialBoard(white, black);
    forall r, c | 0 <= r < 8 && 0 <= c < 8
      ensures d[r][c] == e[r][c]
    {
      if r == 0 || r == 7 {
        assert KindOfTag(BackRankTags[c]) == Engine.BackRankKinds[c];
      }
    }
    forall r | 0 <= r < 8
      ensures d[r] == e[r]
    {
      assert forall c | 0 <= c < 8 :: d[r][c] == e[r][c];
    }
  }
}
