# Chess move generation and position rules, in Dafny

This project models the core of a small two-player chess program written in
Python. It covers three revisions of that program, one module group each:

- **The engine** (`chess_state.py`, `chess_pieces.py`, `chess_move.py`):
  - moves are four coordinates;
  - pieces generate raw candidate moves on an 8×8 grid of optional pieces;
  - a position object builds the initial layout, lists the candidates of the side to move, finds its king and tests for check;
  - it clears en-passant flags, applies a move (pawn double step, en passant, promotion, castling) and vetoes a move that leaves the mover's king attacked;
  - it answers whether the game is finished and who won.

  Modules:
  - `Types` (`types.dfy`): coordinates, the error kinds (the exceptions of the program), piece kinds, square names.
  - `Moves` (`moves.dfy`): the move value, its constructor, equality and text.
  - `Pieces` (`pieces.dfy`): the piece value, its constructor and setters, and each class's `_get_moves` as a specification function plus a method with its loops.
  - `PiecesLemmas` (`pieces_lemmas.dfy`): what each generator yields, as an if-and-only-if over squares, move counts on an otherwise empty board, and the facts the generators do not read.
  - `Engine` (`engine.dfy`): the position as a value and every operation of `ChessState` as a function.
  - `EngineLemmas` (`engine_lemmas.dfy`): properties of those functions.
  - `EngineState` (`engine_state.dfy`): the class `ChessState`. Its board is updated in place. Each method is proved equal to the `Engine` function that describes it.
  - `Opening` (`opening.dfy`): the exact candidate list of the initial position.
- **The later revision** (`chess_game_interface/chess_move.py`, `chess_game_interface/chess_pieces.py`):
  - `InterfaceMoves` (`interface_moves.dfy`) and `InterfacePieces` (`interface_pieces.dfy`).
  - This revision's line and shift generators, constructors, accessors and texts are the engine's, line for line, and are reused.
  - Its pawn differs: a two-square step also needs the square in between to be empty.
- **The early draft** (`chess_classes.py`):
  - module `Draft` (`draft.dfy`);
  - pieces carry an integer type tag, and moves carry the moving piece and a target square;
  - its generators are related to the engine's by lemmas.

Players are an abstract type `Side`. The one thing the program reads from a player is its display character, passed as a function `charOf`.

These source behaviours are modelled as written, although a reader might not expect them:

- `make_move` clears the en-passant flags of the side to move on the caller's own board, before it checks the move. It does this even when it then refuses the move (`EngineState.ChessState.MakeMove`).
- "Attacked" means "an end square of the opponent's raw candidate list" (`Engine.InCheck`). So:
  - a pawn push counts as an attack;
  - a pawn diagonal onto an empty square does not;
  - a square held by the opponent's own piece does not.
- The piece generators of the engine and of the later revision never call a neighbouring pawn's `is_en_passantable`. They only test that the method exists, so an en-passant candidate is offered whatever the flag says (`Pieces.EnPassantBeside`).
  - `make_move` does call it when it applies the move.
  - The draft's generator filters on the flag.
- Castling is recognised only as the moves (4, 0)→(2, 0) and (4, 0)→(6, 0). Only the squares of row 0 are checked for attack (`Engine.IsCastlingMove`, `Engine.CastlingScenarios`).
- The draft's pawn builds each move as `ChessMove(pawn, row, column)`, while `ChessMove` takes the new column before the new row. So every draft pawn move names its target with column and row exchanged. The draft's generators and candidate list are modelled that way (`Draft.GetMovesPawn`, `Draft.GetMoves`). The intended pawn targets are `Draft.PawnMoves` (see "## Findings").
- `is_finished` catches only `InvalidMoveException`. A promoting candidate that comes before every accepted one makes it raise `IncorrectPieceTypeException` (`EngineLemmas.FinishedError`).

Where the Python would crash (an unchecked index, a missing king), the model has a precondition:

- `Pieces.PawnCanAdvance`: a pawn's squares ahead are on the board.
- `Engine.HasKing`: the side to move has a king.

One more precondition excludes inputs rather than a crash:

- `Pieces.WellPlaced`: every piece stores the square it stands on. The program reads moves from the square a piece stores and moves whatever stands on a candidate's start square. It fails only when that square is empty. Boards whose pieces store another square are outside the model.

## Model

| member | source | states |
|---|---|---|
| Moves.NewMove | chess_move.py:6-22 | a move is built iff all four coordinates are in 0..7, otherwise CoordinatesOutOfBounds; the move holds the given coordinates |
| Moves.Equals | chess_move.py:36-44 | a move equals an object iff the object is a move with the same four coordinates |
| Moves.EqualsIsEquivalence | chess_move.py:36-44 | move equality is reflexive, symmetric and transitive |
| Moves.Repr | chess_move.py:46-48 | the text is 13 characters: start square name, " move to ", end square name |
| Moves.ReprRoundTrip | chess_move.py:46-48 | reading back the text of a move gives the move |
| Moves.ReprInjective | chess_move.py:46-48 | two moves with the same text are the same move |
| Pieces.NewPiece | chess_pieces.py:13-26 | a piece is built iff its square is on the board, otherwise CoordinatesOutOfBounds; it holds kind, square and owner, and the flags apply only to the kinds that have them |
| Pieces.SetRow | chess_pieces.py:28-32 | a row outside 0..7 is refused with CoordinatesOutOfBounds; otherwise only the row changes |
| Pieces.SetColumn | chess_pieces.py:34-38 | a column outside 0..7 is refused with CoordinatesOutOfBounds; otherwise only the column changes |
| Pieces.GetMovesLines | chess_pieces.py:49-75 | the nested loop over directions and distances yields exactly LineMoves |
| Pieces.GetMovesShifts | chess_pieces.py:77-100 | the loop over shifts yields exactly ShiftMoves |
| Pieces.GetDiagonalMoves | chess_pieces.py:163-225 | one diagonal of the pawn yields the capture and the en-passant candidate of PawnDiagonal |
| Pieces.GetPawnMoves | chess_pieces.py:136-227 | the pawn generator yields exactly PawnMoves |
| Pieces.GetMovesKing | chess_pieces.py:300-334 | the king generator yields its eight shifts and then the two castling candidates of KingMoves |
| Pieces.GetMoves | chess_pieces.py:230-279 | dispatch on the piece class yields exactly PieceMoves |
| Pieces.PieceText | chess_pieces.py:133-134 | `__str__` is the kind letter followed by the owner's character |
| Pieces.PieceRepr | chess_pieces.py:105-107 | `__repr__` is the class name, " at ", and the square name |
| PiecesLemmas.PieceReprIdentifies | chess_pieces.py:105-107 | two pieces have the same `__repr__` iff they have the same kind and square |
| PiecesLemmas.RayMovesSound | chess_pieces.py:57-74 | every move of a ray reaches an on-board square over empty squares, and that square holds no own piece |
| PiecesLemmas.RayMovesComplete | chess_pieces.py:57-74 | every such square is reached by a move of the ray |
| PiecesLemmas.RayMovesChar | chess_pieces.py:57-74 | a ray yields a move iff it reaches its square over empty squares and the square holds no own piece |
| PiecesLemmas.LineMovesChar | chess_pieces.py:49-75 | the lines yield a move iff one of the directions' rays does |
| PiecesLemmas.LineMovesSquareOnly | chess_pieces.py:49-75 | the lines depend only on the piece's square and owner |
| PiecesLemmas.UnitRayOnBoard | chess_pieces.py:57-74 | along a unit direction, the squares before an on-board square are on the board |
| PiecesLemmas.RayPastEdge | chess_pieces.py:61-64 | once a unit-direction walk leaves the board, the rest of the ray yields nothing |
| PiecesLemmas.UnitRayTarget | chess_pieces.py:57-74 | along a unit direction, a ray target is a slider target: reached over empty squares, free of own pieces |
| PiecesLemmas.SliderMoves | chess_pieces.py:241-279 | a bishop, rook or queen moves to a square iff some square on its directions is reached over empty squares and holds no own piece |
| PiecesLemmas.QueenIsRookAndBishop | chess_pieces.py:272-279 | a queen's moves are exactly those of a rook or a bishop on its square |
| PiecesLemmas.ShiftMovesSound | chess_pieces.py:77-100 | every move of the shifts comes from a shift that lands on the board on a square without an own piece |
| PiecesLemmas.ShiftMovesComplete | chess_pieces.py:77-100 | every shift landing on the board on a square without an own piece yields its move |
| PiecesLemmas.ShiftMovesChar | chess_pieces.py:77-100 | the shifts yield a move iff some shift lands on the board on a square without an own piece |
| PiecesLemmas.KnightMoves | chess_pieces.py:234-238 | a knight moves exactly to the on-board squares a (2,1) or (1,2) jump away that hold no own piece |
| PiecesLemmas.KingMovesChar | chess_pieces.py:300-334 | a king moves to an adjacent square without an own piece, or castles to column 2 or 6 exactly when the castling conditions hold |
| PiecesLemmas.PawnMovesChar | chess_pieces.py:136-227 | a pawn moves one ahead onto an empty square, or two ahead on its first move onto an empty square, or diagonally ahead onto an other player's piece or beside an other player's pawn |
| PiecesLemmas.SliderShape | chess_pieces.py:241-279 | a slider's move starts on its square, ends elsewhere, and never lands on an own piece |
| PiecesLemmas.MoveShape | chess_pieces.py:136-334 | every generated move starts on the piece's square, ends elsewhere, and never lands on an own piece |
| PiecesLemmas.LoneBishopCount | chess_pieces.py:245-246 | a bishop alone on d4 has 13 moves |
| PiecesLemmas.LoneRookCount | chess_pieces.py:267-269 | a rook alone on d4 has 14 moves |
| PiecesLemmas.LoneQueenCount | chess_pieces.py:276-279 | a queen alone on d4 has 27 moves |
| PiecesLemmas.QueenLinesCount | chess_pieces.py:276-279 | 27 squares of an empty board lie on the eight lines through d4 |
| PiecesLemmas.LoneCornerKnightCount | chess_pieces.py:234-238 | a knight alone in a corner has 2 moves |
| PiecesLemmas.RayMovesSameShape | chess_pieces.py:57-74 | a ray reads only occupancy and owners of the board |
| PiecesLemmas.LineMovesSameShape | chess_pieces.py:49-75 | the lines read only occupancy and owners of the board |
| PiecesLemmas.ShiftMovesSameShape | chess_pieces.py:77-100 | the shifts read only occupancy and owners of the board |
| PiecesLemmas.PawnMovesSameShape | chess_pieces.py:136-227 | the pawn generator reads neither the first-move nor the en-passant flag of other pieces |
| PiecesLemmas.KingMovesSameShape | chess_pieces.py:300-334 | the king generator reads occupancy, owners, kinds and the rooks' castling rights only |
| PiecesLemmas.PieceMovesSameShape | chess_pieces.py:136-334 | no generator reads the pawn flags of the other pieces on the board |
| InterfaceMoves.NewMove | chess_game_interface/chess_move.py:31-72 | the later move is built iff all four coordinates are in 0..7, otherwise CoordinatesOutOfBounds |
| InterfaceMoves.Equals | chess_game_interface/chess_move.py:90-99 | a move equals an object iff the object is a move with the same coordinates |
| InterfaceMoves.Repr | chess_game_interface/chess_move.py:101-106 | the text is the start square name, " move to ", the end square name |
| InterfaceMoves.AgreesWithCanonical | chess_game_interface/chess_move.py:31-106 | the later move accepts, builds, compares and prints exactly as the engine's move |
| InterfaceMoves.ReprIdentifies | chess_game_interface/chess_move.py:101-106 | two later moves have the same text iff they are equal |
| InterfacePieces.GetPawnMoves | chess_game_interface/chess_pieces.py:289-395 | the later pawn generator yields exactly its PawnMoves |
| InterfacePieces.GetMoves | chess_game_interface/chess_pieces.py:409-575 | the later dispatch yields exactly its PieceMoves |
| InterfacePieces.PawnMovesChar | chess_game_interface/chess_pieces.py:289-395 | the later pawn moves one ahead, two ahead over two empty squares on its first move, or diagonally ahead onto a square without an own piece that holds a piece or is beside an other player's pawn |
| InterfacePieces.DiffersOnlyInTwoStep | chess_game_interface/chess_pieces.py:318-330 | the later revision yields the engine's moves except the two-square step over an occupied square |
| InterfacePieces.SliderMoves | chess_game_interface/chess_pieces.py:442-575 | bishop, rook and queen move as in the engine: to squares reached over empty squares and free of own pieces |
| InterfacePieces.KnightMoves | chess_game_interface/chess_pieces.py:409-428 | a knight moves exactly to the on-board (2,1) and (1,2) jumps free of own pieces |
| InterfacePieces.LoneCornerKnightCount | chess_game_interface/chess_pieces.py:425-428 | a knight alone in a corner has 2 moves |
| InterfacePieces.KingMoves | chess_game_interface/chess_pieces.py:644-693 | a king moves to an adjacent square without an own piece, or castles to column 2 or 6 exactly when the castling conditions hold |
| Engine.MakePiece | chess_state.py:85-114 | `_make_piece` builds the piece the constructor of its class would |
| Engine.Init | chess_state.py:10-55 | the white side defaults to the side to move; without a board the initial layout is set up with the white side on rows 0 and 1 |
| Engine.RowMovesSound | chess_state.py:61-69 | every candidate of a row's first n squares is generated by a piece of the side on one of them |
| Engine.RowMovesComplete | chess_state.py:61-69 | every move a piece of the side generates on one of a row's first n squares is among the row's candidates |
| Engine.RowMovesChar | chess_state.py:61-69 | a row's candidates are exactly the moves its pieces of the side generate |
| Engine.BoardMovesSound | chess_state.py:57-70 | every candidate of the first n rows is generated by a piece of the side on one of those rows |
| Engine.BoardMovesComplete | chess_state.py:57-70 | every move a piece of the side generates on the first n rows is a candidate |
| Engine.BoardMovesChar | chess_state.py:57-70 | the candidate list holds exactly the moves some piece of the side generates |
| Engine.CandidateStart | chess_state.py:57-70 | on a well-placed board, a candidate is generated by the piece on its start square |
| Engine.FindKingFromChar | chess_state.py:75-83 | the search from square k finds a king iff one stands at or after k, and finds the first |
| Engine.FindKingChar | chess_state.py:75-83 | `_get_current_players_king` finds a king iff the side has one, and it is the first in row-major order |
| Engine.ResetCellsEffect | chess_state.py:268-279 | walking the row clears the flags of exactly the en-passant pawns of the side and changes nothing else |
| Engine.ResetEffect | chess_state.py:268-279 | the reset rebuilds exactly the side's en-passant pawns on row 3 (row 4 for the other side) and leaves every other square alone |
| Engine.ResetKeepsValid | chess_state.py:268-279 | the reset keeps the board well placed, keeps the pawns able to advance, and keeps every king |
| Engine.PieceShift | chess_state.py:116-134 | `_piece_shift` empties the start square, puts a fresh piece of the same kind and owner with the given flags on the end square, and changes nothing else |
| Engine.EvolvedKeepsValid | chess_state.py:291-312 | a board that differs from a valid one only by emptied squares and pieces put down by the mover is valid for both sides |
| Engine.SetEvolves | chess_state.py:184 | emptying a square keeps a board evolved |
| Engine.ShiftEvolves | chess_state.py:116-134 | a shift puts down only a piece of the mover |
| Engine.PawnLandsShort | chess_state.py:136-202 | a pawn that does not promote lands where it can still advance |
| Engine.PawnEvolves | chess_state.py:136-202 | the pawn scenarios only empty squares and put down the mover's piece |
| Engine.CastlingEvolves | chess_state.py:223-266 | castling only empties squares and puts down the mover's rook |
| Engine.EffectsEvolve | chess_state.py:291-308 | the effects of a candidate only empty squares and put down the mover's pieces |
| Engine.PawnKeepsKing | chess_state.py:136-202 | a pawn move leaves any king off its start and end squares in place |
| Engine.EffectsKeepKing | chess_state.py:291-308 | the mover still has a king after the effects of a candidate |
| Engine.OutcomeAt | chess_state.py:335-341 | the j-th outcome is_finished sees is make_move's answer for the j-th candidate |
| Engine.OutcomesEach | chess_state.py:335-341 | every outcome is_finished sees is make_move's answer for its candidate, in candidate order |
| Engine.RenderLayout | chess_state.py:349-357 | row r of the board is printed as line 7-r, each square as three characters, each line ending in a newline |
| EngineLemmas.InitialLayout | chess_state.py:18-50 | the initial board is valid with a king per side; rows 0,1 white and 6,7 black, back ranks R N B Q K B N R, pawns with first move, rooks and kings may castle |
| EngineLemmas.ResetIdempotent | chess_state.py:268-279 | resetting twice is resetting once |
| EngineLemmas.ApplyIgnoresReset | chess_state.py:281-321 | make_move answers the same on a state whose flags were already reset |
| EngineLemmas.ResetKeepsShape | chess_state.py:268-279 | the reset changes no occupancy or owner, no square of the other side and no king |
| EngineLemmas.IsPromotionIgnoresReset | chess_state.py:323-332 | is_promotion answers the same before and after the reset |
| EngineLemmas.RowMovesSameShape | chess_state.py:61-69 | a row's candidates depend only on the side's pieces and on the occupancy of other squares |
| EngineLemmas.BoardMovesSameShape | chess_state.py:57-70 | the candidate list depends only on the side's pieces and on the occupancy of other squares |
| EngineLemmas.FindKingFromSame | chess_state.py:75-83 | the king search depends only on where the side's kings are |
| EngineLemmas.InCheckIgnoresReset | chess_state.py:204-221 | the reset does not change whether the side to move is in check |
| EngineLemmas.EffectsErrors | chess_state.py:136-202 | applying a candidate fails only with InvalidMove or IncorrectPieceType, and IncorrectPieceType iff it promotes without a valid promotion kind |
| EngineLemmas.ApplyResetErrors | chess_state.py:286-321 | a non-candidate is refused with InvalidMove; IncorrectPieceType iff a promoting candidate comes without a valid kind |
| EngineLemmas.ApplyErrors | chess_state.py:281-321 | make_move refuses a move outside the reset board's candidates with InvalidMove and fails with no other error than InvalidMove or IncorrectPieceType |
| EngineLemmas.ApplyOk | chess_state.py:310-321 | an accepted move was a candidate; the new state swaps the sides, keeps the white side, is valid, and leaves the mover with a king that is not attacked |
| EngineLemmas.ApplyBoard | chess_state.py:284-308 | an accepted move's board is the effect of the move on the reset board, and the start square holds the mover's piece |
| EngineLemmas.CandidateMover | chess_state.py:268-289 | the piece that moves is the mover's piece on the start square, the same kind as before the reset |
| EngineLemmas.CandidateOwn | chess_state.py:57-70 | every candidate starts on a square of the side to move |
| EngineLemmas.PawnCandidateRows | chess_pieces.py:136-227 | a pawn candidate always changes row |
| EngineLemmas.ResetSquare | chess_state.py:268-279 | one square after the reset, in terms of the square before |
| EngineLemmas.PlainMoveEffect | chess_state.py:296-300 | a non-pawn, non-castling move changes exactly two squares: the start becomes empty, the end gets a fresh piece of the same kind and owner with no flags |
| EngineLemmas.PawnMoveEffect | chess_state.py:136-202 | a pawn move lands the pawn, or its promotion, with en_passant iff it moved two rows, removes the pawn beside an en-passant capture, and changes nothing else |
| EngineLemmas.PawnScenariosEffect | chess_state.py:136-202 | on the board it is given, a pawn move lands the pawn or its promotion, removes the pawn beside an en-passant capture, and changes nothing else |
| EngineLemmas.CastlingEffect | chess_state.py:223-266 | castling puts the king on column 2 or 6, the rook beside column 4, and empties column 4 and the corner |
| EngineLemmas.CastlingUnderAttack | chess_state.py:242-256 | castling through a square the waiting side attacks is refused with InvalidMove |
| EngineLemmas.PawnDiagonalWithoutCapture | chess_state.py:167-194 | a diagonal pawn move with no enemy on the target and no en-passant pawn beside is refused with InvalidMove |
| EngineLemmas.FinishedFromChar | chess_state.py:336-342 | the loop answers true iff every outcome is InvalidMove, false iff some success comes before any other error, and raises the first other error otherwise |
| EngineLemmas.FinishedFromFirst | chess_state.py:336-342 | the first outcome that is not InvalidMove decides the loop |
| EngineLemmas.OutcomeErrors | chess_state.py:334-342 | each candidate's outcome is a state, InvalidMove, or IncorrectPieceType exactly for promoting candidates |
| EngineLemmas.FinishedFromError | chess_state.py:336-342 | the loop raises an error other than InvalidMove iff an outcome with that error comes before every accepted one |
| EngineLemmas.RetryAfterReset | chess_state.py:336-341 | each round of the loop sees a state whose next reset is the first reset, and make_move answers as on the state before the loop |
| EngineLemmas.FinishedTrue | chess_state.py:334-342 | is_finished is true iff make_move refuses every candidate with InvalidMove |
| EngineLemmas.FinishedFalse | chess_state.py:334-342 | is_finished is false iff some candidate is accepted and every earlier one was refused with InvalidMove |
| EngineLemmas.FinishedErrorKind | chess_state.py:337-341 | the only error is_finished lets escape is IncorrectPieceType |
| EngineLemmas.FinishedError | chess_state.py:334-342 | is_finished raises IncorrectPieceType iff a promoting candidate comes before any accepted one |
| EngineLemmas.WinnerChar | chess_state.py:344-347 | the winner is the waiting side iff the game is finished with the side to move in check; None when it is not finished or in stalemate |
| EngineState.ChessState.constructor | chess_state.py:10-55 | the new state is the position Init describes |
| EngineState.ChessState.GetMoves | chess_state.py:57-70 | the row-by-row loop yields exactly the candidate list |
| EngineState.ChessState.GetRowMoves | chess_state.py:61-69 | one row of the board contributes the moves of its squares, left to right, in that order |
| EngineState.ChessState.GetSquareMoves | chess_state.py:62-69 | one square contributes its piece's moves when the piece belongs to the side to move |
| EngineState.ChessState.GetCurrentPlayersKing | chess_state.py:75-83 | the scan returns the first king of the side to move, and finds one iff the side has one |
| EngineState.ChessState.IsInCheck | chess_state.py:204-221 | the check test is InCheck of the state |
| EngineState.ChessState.ResetEnPassantablePawns | chess_state.py:268-279 | the board becomes the reset board, written in place |
| EngineState.ChessState.EvaluateCastlingScenarios | chess_state.py:223-266 | castling refuses an attacked path and otherwise moves the rook, as CastlingScenarios says |
| EngineState.ChessState.MakeMove | chess_state.py:281-321 | the board is reset in place; the answer is a fresh state or the error Apply gives on the state before the call |
| EngineState.ChessState.IsFinished | chess_state.py:334-342 | the answer is Finished of the state before the call, and the board is left as make_move left it |
| EngineState.ChessState.TryCandidate | chess_state.py:337-341 | one round of the loop leaves the reset board and answers as make_move on the state before the loop |
| EngineState.ChessState.GetWinner | chess_state.py:344-347 | the answer is Winner of the state before the call |
| Opening.BackRankSquare | chess_state.py:18-50 | on the initial back rank only the knights move, each to the two squares of row 2 beside it |
| Opening.PawnRankSquare | chess_state.py:18-50 | each initial pawn moves one and two squares ahead |
| Opening.InitialCandidates | chess_state.py:18-70 | from the initial layout the candidates are the 4 knight moves followed by the 16 pawn pushes, 20 in all, starting on the knights and the pawns |
| Draft.TagsAreKinds | chess_classes.py:9-14 | the six type tags 0..5 and the six kinds correspond one to one |
| Draft.NewDraftPiece | chess_classes.py:28-55 | the square is checked first (CoordinatesOutOfBounds), then the tag (IncorrectPieceType); a valid piece is the engine's piece of that kind |
| Draft.PieceEqualsMeansSameKind | chess_classes.py:92-93 | two draft pieces compare equal iff they have the same kind, whatever their squares |
| Draft.MoveEqualsAsWrittenIgnoresTarget | chess_classes.py:113-120 | as written, two moves to different squares compare equal |
| Draft.MoveEqualsIsEquivalence | chess_classes.py:113-120 | corrected move equality is an equivalence, false for a non-move, true iff same piece kind and target |
| Draft.IntTextRoundTrip | chess_classes.py:104 | an integer printed in decimal reads back as itself |
| Draft.PieceRepr | chess_classes.py:95-104 | the text is the kind name, " at ", the column and the row, which read back as the piece's square |
| Draft.MoveRepr | chess_classes.py:122-131 | the text is the kind name, " move to ", the column and the row, which read back as the target |
| Draft.PawnMovesAsWrittenSwapsSquare | chess_classes.py:188-249 | as written, a lone pawn on column 0, row 1 offers the square column 2, row 0 and not the square ahead |
| Draft.PawnMovesAsWrittenNames | chess_classes.py:188-249 | the draft pawn's moves, as written, are exactly its intended targets with column and row exchanged |
| Draft.PawnTargets | chess_classes.py:188-249 | the draft pawn moves one ahead onto an empty square, two ahead on its first move onto an empty square, or diagonally onto an enemy piece or beside an enemy pawn whose en-passant flag is set |
| Draft.PawnWithinCanonical | chess_classes.py:188-249 | every draft pawn move is an engine pawn move; the engine adds only en-passant candidates beside a pawn without the flag |
| Draft.GetMovesPawn | chess_classes.py:188-249 | the pawn generator, as written, yields the intended targets in order, each with column and row exchanged |
| Draft.GetAhead | chess_classes.py:194-204 | the forward steps yield the one- and two-square targets, each with column and row exchanged |
| Draft.GetDiagonal | chess_classes.py:205-247 | one diagonal yields the capture or en-passant target, with column and row exchanged |
| Draft.GetMovesShifted | chess_classes.py:251-268 | the knight's and king's shift loop yields exactly the engine's shift moves, as draft moves |
| Draft.GetBishopRay | chess_classes.py:274-286 | the bishop's ray, stopping at the edge, yields the engine's ray |
| Draft.GetRookRay | chess_classes.py:293-306 | the rook's ray, skipping off-board squares, yields the engine's ray |
| Draft.GetMovesBishop | chess_classes.py:270-287 | the draft bishop yields exactly the engine bishop's moves |
| Draft.GetMovesRook | chess_classes.py:289-307 | the draft rook yields exactly the engine rook's moves |
| Draft.QueenSameTargets | chess_classes.py:327-328 | the draft queen (bishop then rook) reaches exactly the engine queen's squares |
| Draft.GetMovesQueen | chess_classes.py:327-328 | the draft queen yields the bishop's moves followed by the rook's |
| Draft.PieceMovesAgainstCanonical | chess_classes.py:330-340 | knight, bishop and rook equal the engine's; the queen reaches the same squares; the king loses only castling; a non-pawn's draft move is an engine move; a pawn's draft move is the transpose of an intended target, and that target is an engine pawn move |
| Draft.GetMovesPiece | chess_classes.py:330-340 | dispatch on the type tag yields exactly the draft piece moves, a pawn's with column and row exchanged |
| Draft.RowMovesChar | chess_classes.py:342-353 | a row's draft candidates are exactly the moves its pieces of the side generate |
| Draft.BoardMovesChar | chess_classes.py:342-353 | the draft candidate list holds exactly the moves some piece of the side generates |
| Draft.DraftMoveWithinCanonical | chess_classes.py:330-340 | every draft move of a piece names the end square of an engine move from the piece's square: the same square for a non-pawn, with column and row exchanged for a pawn |
| Draft.CandidatesWithinCanonical | chess_classes.py:342-353 | every draft candidate names the end square of an engine candidate from the same square: the same square for a non-pawn, with column and row exchanged for a pawn |
| Draft.GetMoves | chess_classes.py:342-353 | the draft's row-by-row loop yields exactly its candidate list, pawn moves as written |
| Draft.GetSquareMoves | chess_classes.py:345-352 | one square contributes its piece's draft moves, as written, when the piece belongs to the side to move |
| Draft.InitialBoardAgrees | chess_classes.py:135-186 | the draft builds the same initial board as the engine |

These are the same as engine members and have no rows of their own:

- The draft `set_row`/`set_column` are `Pieces.SetRow`/`Pieces.SetColumn`.
- The draft piece `__str__` (chess_classes.py:81-90) is `Pieces.PieceText`.
- The draft board `__str__` (chess_classes.py:367-374) is `Engine.Render`.
- The draft's choice of white side in `__init__` is `Engine.Init`.

## Left out

- In-place updates of a piece object: `set_row` and `set_column` return the updated piece, and the engine replaces pieces wholesale. Two board squares sharing one piece object are not modelled.
- The user interface, input and output: chess.py, chess_io.py, chess_game_interface/chess_app.py, chess_game_interface/load_svg.py, the icons and `draw`.
- The game wrappers chess_game.py and chess_game_interface/chess_game.py. The state class of the later revision is not part of this model.
- Exceptions are values of an `Error` datatype inside a `Result`.
- The player class: only its identity and its display character are used.
- The accessors (`column()`, `row()`, `player()`, `start_row()`, …) are datatype fields.
- The draft `make_move`, `is_finished` and `get_winner` (chess_classes.py:358-365) have no body in the source and are not modelled.
- Engine.InCheck, Engine.CastlingScenarios: the square the king stores, and the castling test on row 0, are taken as written; the model does not say which squares a real attack would cover.
- Pieces.PawnCanAdvance: a pawn whose square ahead is off the board makes the source fail on an index, or wrap around to row 7. The model excludes it by precondition.
- Engine.HasKing: without a king, `_is_in_check` fails. The model excludes it by precondition.
- Pieces.WellPlaced: a piece that stores a square other than its own is excluded by precondition wherever moves are applied.

## Findings

| source | as written | input that shows it | evidently intended | confidence | as-written member | corrected member |
|---|---|---|---|---|---|---|
| chess_classes.py:113-120 | `__eq__` returns a 3-tuple, which is always true | two moves of the same piece to (0, 0) and to (7, 7) | true iff same piece kind and same target | high, not executed | Draft.MoveEqualsAsWrittenIgnoresTarget | Draft.MoveEqualsIsEquivalence |
| chess_classes.py:188-249 | pawn moves are built as `ChessMove(pawn, row, column)`, so the target's column and row are swapped | a lone pawn on column 0, row 1 offers column 2, row 0 | the square ahead, column 0, row 2 | high, not executed | Draft.PawnMovesAsWrittenSwapsSquare | Draft.PawnTargets |
