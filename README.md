# The core of a bitboard chess engine, in Dafny

This project models the rules-and-search core of a small C# chess engine (Chess/) and proves properties of the model. The engine keeps one mutable board with an undo stack. It generates legal moves with bitboards (64-bit masks, one bit per square, a1 = 0 to h8 = 63) and pin and check masks traced from the king. It evaluates positions with integer material and piece-square terms, and it searches with negamax alpha-beta, quiescence, null-move and futility pruning and killer and principal-variation move ordering. The pieces move by Article 3 of the FIDE Laws of Chess, castling by Article 3.8.2. Positions are read from FEN, section 16.1 of the PGN Standard.

Each source file is one module, and the model takes the form of its source. Pure code becomes functions and lemmas. Code that changes state becomes classes and methods, each proved to end in the state that a specification function gives. Properties are then proved about those functions.

| file | module | models |
|---|---|---|
| wrappers.dfy | Wrappers | `Option` and `Result`: a C# `null` or exception becomes an explicit case |
| bits.dfy | Bits | a `ulong` bitboard as `bv64`, read square by square through `Has(b, i)` |
| pieces.dfy | Pieces | Chess/Piece.cs: piece codes made of a 3-bit type and a 2-bit colour, and FEN letters |
| move_helper.dfy, move_helper_facts.dfy | MoveHelper, MoveHelperFacts | Chess/MoveHelper.cs: the static constructor that fills the geometry tables, and what each table means on the board |
| bitboard_utilities.dfy | BitboardUtilities | Chess/BitboardUtilities.cs: whole-board shifts |
| material_key.dfy | MaterialKey | Chess/MaterialKey.cs: one 4-bit counter per piece code in a 64-bit key |
| zobrist_key.dfy | ZobristKey | Chess/ZobristKey.cs: the XOR position hash over a table built from a stream of random values |
| moves.dfy | Moves | Chess/Move.cs: the move record, its equality, hash and coordinate notation |
| positions.dfy, position_facts.dfy | Positions, PositionFacts | Chess/Board.cs: the board state as a value, the effect of each move operation on it, and the make/unmake round trips |
| fen.dfy | Fen | the FEN constructor of Chess/Board.cs as a value |
| board.dfy | Boards | the `Board` class, with its 64-square array, updated in place by the four move operations |
| generation.dfy, move_generator.dfy, generation_facts.dfy | Generation, MoveGenerators, GenerationFacts | Chess/MoveGenerator.cs: the masks and move lists as functions, the `MoveGenerator` class that computes them by the source's loops, and what they mean on the board |
| generation_examples.dfy | GenerationExamples | Chess/MoveGenerator.cs: a position in which the generator lists an en-passant capture that exposes the own king |
| evaluation.dfy | Evaluations | Chess/Evaluation.cs: the tables, the memoised material score and the positional terms |
| ai.dfy | Search | Chess/AI.cs: move ordering, the killer table and the recursive search |

Where the source throws, the model returns an error value: a `Failure`, a `false` success flag, or the search outcome `Aborted`. What the state holds after such an error is not described.

Some behaviour of the source looks unintended. The model runs it as written:
- `AddKingMoves` ignores `onlyCaptures`. The quiescence search therefore also tries quiet king moves (`GenerationFacts.KingStepsIgnoreOnlyCaptures`).
- An en-passant capture is filtered only by the pin and check masks. The discovered check along the rank through the two vacated squares is not detected (`GenerationExamples.EnPassantExposesKingAsWritten`).
- `DirectionLookup` classifies an offset by its divisibility by 9, 8 and 7. So the offset 7 from a1 to h1, which lies along the rank, is classified as the step 7 (north-west). `MoveHelperFacts.DirectionRankException` states this.
- King moves are exempt from the corner checks in `SubmitMove`'s castling-rights update (Chess/Board.cs:300-322). Castling rook lists use a fixed `Remove(0)`/`Add(3)` (Chess/Board.cs:353-354). Knight and pawn check detection reads the accumulated attack map (Chess/MoveGenerator.cs:459-466, 473-480). The board, the generator and the search run these four as written. Beside each as-written definition sits a corrected one, with the evidently intended property proved about it (see Findings).

Helpers that the source calls but does not define are declared with their evident meaning:
- `ZobristKey.PieceMoved` and `ZobristKey.ColorChanged` (called at Chess/Board.cs:145, 189-190, 212, 243, 286, 355, 371);
- `BitboardUtilities.ShiftUpLeft`, `ShiftUpRight`, `ShiftDownLeft` and `ShiftDownRight` (Chess/MoveGenerator.cs:203-205);
- `MoveHelper.RankBitboards` (Chess/MoveGenerator.cs:178-179).

## Model

| member | source | states |
|---|---|---|
| Pieces.PieceTypesShape | Chess/Piece.cs:29-30 | `PIECE_TYPES` holds twelve codes; each is a valid type combined with WHITE for the first six and BLACK for the last six |
| Pieces.PieceTypesDistinct | Chess/Piece.cs:29-30 | the twelve codes of `PIECE_TYPES` are pairwise different |
| Pieces.PieceCodes | Chess/Piece.cs:15-30 | a code names a coloured piece exactly when its type field is one of the six types, its colour field is WHITE or BLACK and it is below 32 |
| Pieces.FieldsDisjoint | Chess/Piece.cs:15-27 | the type mask and the colour mask split the low five bits; combining a type and a colour with `|` gives both fields back unchanged |
| Pieces.OtherColor | Chess/Piece.cs:53-56 | XOR with the colour mask flips the two colour bits only, so WHITE becomes BLACK and BLACK becomes WHITE |
| Pieces.OtherColorSwaps | Chess/Piece.cs:53-56 | `OtherColor` is an involution and maps a colour to the other colour |
| Pieces.FromFenLetters | Chess/Piece.cs:58-78 | a lower-case letter gives the black piece of its type, an upper-case letter the white one; every other character (except the Kelvin sign, which lower-cases to `k`) makes the parse fail |
| Pieces.FromFenIsPiece | Chess/Piece.cs:58-78 | every successful parse gives one of the twelve coloured pieces |
| Pieces.FenLetterRoundTrip | Chess/Piece.cs:32-78 | printing the piece parsed from one of the twelve piece letters gives that letter back |
| Pieces.FenLetterRoundTripOf | Chess/Piece.cs:32-51 | a piece prints as its type's lower-case letter, upper-cased exactly when it is white |
| Pieces.FenPieceRoundTrip | Chess/Piece.cs:32-78 | parsing the letter printed for any of the twelve pieces gives the same piece back |
| Pieces.FenPieceRoundTripOf | Chess/Piece.cs:32-78 | the same round trip stated for a type and a colour |
| Pieces.ToFenCases | Chess/Piece.cs:32-51 | NONE prints as `.`; printing fails exactly for the type field 28, which no type uses; a printed piece letter is upper case exactly when the colour is WHITE |
| MaterialKey.IndexOf | Chess/MaterialKey.cs:17-29 | the position of a code in `PIECE_TYPES`: the first index holding it, or the length when it is absent |
| MaterialKey.BuildTables | Chess/MaterialKey.cs:17-29 | the static constructor's loop fills `OFFSETS` with 4 times the piece's index in `PIECE_TYPES` and `MASKS` with 15 shifted there, for all 32 codes |
| MaterialKey.SlotIs | Chess/MaterialKey.cs:20-28 | the slot of a code is i exactly when the code is the i-th of `PIECE_TYPES` |
| MaterialKey.SlotsOfPieces | Chess/MaterialKey.cs:20-28 | exactly the twelve coloured pieces get one of the twelve 4-bit fields |
| MaterialKey.SlotsDistinct | Chess/MaterialKey.cs:20-28 | two different pieces get different fields, so their counts never overlap; an offset is at most 44 |
| MaterialKey.MaskFields | Chess/MaterialKey.cs:25 | a piece's mask is 15 in that piece's field and 0 in every other field |
| MaterialKey.AddField | Chess/MaterialKey.cs:31-37 | adding to a field keeps the key a 64-bit value; below 15 the field goes up by one and every other field is unchanged |
| MaterialKey.RemoveField | Chess/MaterialKey.cs:39-45 | removing from a field keeps the key a 64-bit value; from 1 upwards the field goes down by one and every other field is unchanged |
| MaterialKey.AddPiece | Chess/MaterialKey.cs:31-37 | `AddPiece` on any code below 32 gives a 64-bit key |
| MaterialKey.RemovePiece | Chess/MaterialKey.cs:39-45 | `RemovePiece` on any code below 32 gives a 64-bit key |
| MaterialKey.AddCounts | Chess/MaterialKey.cs:31-37 | below 15, adding a piece raises that piece's count by one and leaves every other count unchanged |
| MaterialKey.RemoveCounts | Chess/MaterialKey.cs:39-45 | from 1 upwards, removing a piece lowers that piece's count by one and leaves every other count unchanged |
| MaterialKey.AddAtFifteen | Chess/MaterialKey.cs:34-36 | at a count of 15 the `+ 1` overflows the field: it becomes 0 and the lowest bit of the next field is set |
| MaterialKey.AddFieldAtFifteen | Chess/MaterialKey.cs:34-36 | the same overflow at field level |
| MaterialKey.RemoveAtZero | Chess/MaterialKey.cs:42-44 | at a count of 0 the unsigned `- 1` wraps around: the field and every field above it become 15, and the fields below keep their values |
| MaterialKey.AddFieldIsWeight | Chess/MaterialKey.cs:31-37 | below 15, adding to field k adds 16^k to the key |
| MaterialKey.RemoveFieldIsWeight | Chess/MaterialKey.cs:39-45 | from 1 upwards, removing from field k subtracts 16^k from the key |
| MaterialKey.AddIsWeight | Chess/MaterialKey.cs:31-37 | below 15, adding a piece adds 16 to the power of its slot |
| MaterialKey.RemoveIsWeight | Chess/MaterialKey.cs:39-45 | from 1 upwards, removing a piece subtracts 16 to the power of its slot |
| MaterialKey.RemoveUndoesAdd | Chess/MaterialKey.cs:31-45 | below 15, removing a piece after adding it gives the key back |
| MaterialKey.AddUndoesRemove | Chess/MaterialKey.cs:31-45 | from 1 upwards, adding a piece after removing it gives the key back |
| MaterialKey.FieldStepsCommute | Chess/MaterialKey.cs:31-45 | updates of two different fields commute while neither overflows |
| MaterialKey.AddsCommute | Chess/MaterialKey.cs:31-37 | adding two different pieces gives the same key in either order |
| MaterialKey.AddRemoveCommute | Chess/MaterialKey.cs:31-45 | adding one piece and removing another gives the same key in either order |
| ZobristKey.Row | Chess/ZobristKey.cs:18-23 | the 64 entries the static constructor draws for the k-th piece are the next 64 values of the random stream |
| ZobristKey.BuildTable | Chess/ZobristKey.cs:14-24 | the table has 32 rows: the row of each of the twelve pieces holds its 64 values from the stream in `PIECE_TYPES` order, and the other codes have no row |
| ZobristKey.GetKey | Chess/ZobristKey.cs:33-46 | the loop XORs the entry of every occupied square, then the side code and the en-passant square as an unsigned value; the result equals the hash function on the final board |
| ZobristKey.EmptyHash | Chess/ZobristKey.cs:36-40 | an empty board contributes nothing to the hash |
| ZobristKey.PlaceHash | Chess/ZobristKey.cs:36-40 | putting a piece on an empty square XORs exactly that piece's entry for that square into the square part of the hash |
| ZobristKey.PlaceKey | Chess/ZobristKey.cs:33-46 | putting a piece on an empty square changes `GetKey` by XOR with that piece's entry for that square |
| ZobristKey.RemoveKey | Chess/ZobristKey.cs:33-46 | emptying a square changes `GetKey` by XOR with the entry of the piece that stood there |
| ZobristKey.PieceMovedKey | Chess/Board.cs:189-190 | the incremental `PieceMoved` update gives the key `GetKey` computes from scratch after a piece is moved to an empty square or taken off |
| ZobristKey.ColorChangedKey | Chess/Board.cs:143-145 | the incremental `ColorChanged` update gives the key `GetKey` computes when the side to move is the other colour |
| BitboardUtilities.ShiftUpSquares | Chess/BitboardUtilities.cs:11-14 | square i is set after `ShiftUp` exactly when i is on ranks 2 to 8 and square i - 8 was set |
| BitboardUtilities.ShiftDownSquares | Chess/BitboardUtilities.cs:16-19 | square i is set after `ShiftDown` exactly when i is on ranks 1 to 7 and square i + 8 was set |
| BitboardUtilities.NotOnFile | Chess/MoveHelper.cs:134-140 | the complement of a file mask holds exactly the squares on the other files |
| BitboardUtilities.ShiftLeftAsWrittenSquares | Chess/BitboardUtilities.cs:21-24 | as written, `ShiftLeft` sets square i exactly when i - 1 was set and i is not on file h: the pieces move towards file h, and file a of the result comes from file h of the rank below |
| BitboardUtilities.ShiftRightAsWrittenSquares | Chess/BitboardUtilities.cs:26-29 | as written, `ShiftRight` sets square i exactly when i + 1 was set and i is not on file a: the pieces move towards file a, and file h of the result comes from file a of the rank above |
| BitboardUtilities.ShiftLeftSquares | Chess/BitboardUtilities.cs:21-24 | the corrected `ShiftLeft` sets square i exactly when i + 1 was set and i is not on file h: every piece moves one file towards a and none wraps |
| BitboardUtilities.ShiftRightSquares | Chess/BitboardUtilities.cs:26-29 | the corrected `ShiftRight` sets square i exactly when i - 1 was set and i is not on file a: every piece moves one file towards h and none wraps |
| BitboardUtilities.ShiftsDistribute | Chess/BitboardUtilities.cs:11-29 | each shift, as written and corrected, maps a union of bitboards to the union of their shifts |
| BitboardUtilities.AsWrittenFailsTest | ChessTests/BitboardTests.cs:15-45 | on the test's board (squares 28, 32 and 47) the shifts as written give square 48 but not 27, and square 31 but not 29 |
| BitboardUtilities.ShiftLeftMeetsTest | ChessTests/BitboardTests.cs:15-45 | on the test's board the corrected `ShiftLeft` gives exactly squares 27 and 46, two bits |
| BitboardUtilities.ShiftRightMeetsTest | ChessTests/BitboardTests.cs:15-45 | on the test's board the corrected `ShiftRight` gives exactly squares 29 and 33, two bits |
| BitboardUtilities.ShiftUpLeftSquares | Chess/MoveGenerator.cs:203-205 | up and left: square t is set exactly when t is above rank 1, not on file h, and t - 7 was set |
| BitboardUtilities.ShiftUpRightSquares | Chess/MoveGenerator.cs:203-205 | up and right: square t is set exactly when t is above rank 1, not on file a, and t - 9 was set |
| BitboardUtilities.ShiftDownLeftSquares | Chess/MoveGenerator.cs:203-205 | down and left: square t is set exactly when t is below rank 8, not on file h, and t + 9 was set |
| BitboardUtilities.ShiftDownRightSquares | Chess/MoveGenerator.cs:203-205 | down and right: square t is set exactly when t is below rank 8, not on file a, and t + 7 was set |
| BitboardUtilities.PawnStep | Chess/MoveHelper.cs:95-110 | a pawn on ranks 2 to 7 attacks the two diagonal squares one rank forward for its colour, each only when it does not leave the board sideways |
| BitboardUtilities.CaptureShiftSquares | Chess/MoveGenerator.cs:203-205 | the two diagonal shifts of a pawn bitboard for a colour set exactly the squares one of the shifts reaches |
| BitboardUtilities.PawnTableStep | Chess/MoveHelper.cs:95-110 | the pawn attack table entry of a square on ranks 2 to 7 holds exactly its two forward diagonal squares that stay on the board |
| BitboardUtilities.PawnCaptureShifts | Chess/MoveHelper.cs:95-110 | for pawns on ranks 2 to 7, shifting the whole pawn bitboard diagonally sets exactly the union of the attack table entries of the pawns |
| MoveHelper.Tabulate | Chess/MoveHelper.cs:24-39 | a table built square by square has one entry per index |
| MoveHelper.TabulateIndex | Chess/MoveHelper.cs:24-39 | entry s of such a table is the value computed for s |
| MoveHelper.Initialize | Chess/MoveHelper.cs:41-156 | the static constructor fills every table (edge distances, knight and king lists and bitboards, pawn attacks, direction lookup, file, isolated-pawn and passed-pawn masks) with the value defined for each index |
| MoveHelper.BuildEdges | Chess/MoveHelper.cs:43-53 | entry s of `NumSquaresToEdge` holds the distances to the board's edge in the eight directions N, E, S, W, NE, SE, SW, NW |
| MoveHelper.OrAll | Chess/MoveHelper.cs:72-73 | OR-ing `1ul << target` over a list of targets gives the bitboard of the list |
| MoveHelper.KnightTargets | Chess/MoveHelper.cs:58-70 | the eight guarded `Add` calls give the knight list of the square, in the source's order |
| MoveHelper.KingTargets | Chess/MoveHelper.cs:77-84 | the loop over the eight directions adds the neighbour in every direction with a positive edge distance, in direction order |
| MoveHelper.SquareEntries | Chess/MoveHelper.cs:56-89 | one pass of the loop gives the square's knight list and bitboard and its king list and bitboard |
| MoveHelper.BuildKnightsAndKings | Chess/MoveHelper.cs:56-90 | all 64 entries of `KnightMoves`, `KnightBitboards`, `KingMoves` and `KingAttackBitboards` hold their defined values |
| MoveHelper.PawnEntry | Chess/MoveHelper.cs:97-109 | one pass of the pawn loop gives the square's attack bitboard for a colour |
| MoveHelper.BuildPawnAttacks | Chess/MoveHelper.cs:92-110 | both colours' 64-entry pawn attack tables hold their defined values; squares on ranks 1 and 8 stay empty |
| MoveHelper.BuildDirectionLookup | Chess/MoveHelper.cs:112-132 | all 127 entries of `DirectionLookup` hold the sign of the offset times 9, 8, 7 or 1, as the first of these that divides it |
| MoveHelper.BuildFiles | Chess/MoveHelper.cs:134-140 | each of the eight file masks holds the defined file bitboard |
| MoveHelper.NeighbourEntries | Chess/MoveHelper.cs:144-154 | one pass of the last loop gives the file's isolated-pawn mask (the neighbouring files) and passed-pawn mask (the file and its neighbours) |
| MoveHelper.BuildNeighbourFiles | Chess/MoveHelper.cs:142-155 | all eight isolated-pawn and passed-pawn masks hold their defined values |
| MoveHelperFacts.EdgeBounds | Chess/MoveHelper.cs:43-53 | every edge distance lies between 0 and 7 |
| MoveHelperFacts.RayStep | Chess/MoveHelper.cs:43-53 | n steps in a direction, for n up to the edge distance, stay on the board and move file and rank by n times the direction's steps |
| MoveHelperFacts.RayEnds | Chess/MoveHelper.cs:43-53 | one step past the edge distance leaves the board |
| MoveHelperFacts.HasBitsOf | Chess/MoveHelper.cs:72-73 | the bitboard of a list of on-board squares holds exactly the squares of the list |
| MoveHelperFacts.KnightListIsJumps | Chess/MoveHelper.cs:58-70 | the knight list of a square holds exactly the squares a knight's jump (files and ranks apart by 1 and 2) reaches on the board |
| MoveHelperFacts.KnightListOnBoard | Chess/MoveHelper.cs:58-70 | every knight target is on the board |
| MoveHelperFacts.KnightBitboardIsJumps | Chess/MoveHelper.cs:72-73 | the knight bitboard holds exactly the knight's jumps |
| MoveHelperFacts.KnightSymmetric | Chess/MoveHelper.cs:56-75 | a knight on s attacks t exactly when a knight on t attacks s |
| MoveHelperFacts.KingListIsSteps | Chess/MoveHelper.cs:77-84 | the king list of a square holds exactly the on-board squares at most one file and one rank away, the square itself excluded |
| MoveHelperFacts.KingListOnBoard | Chess/MoveHelper.cs:77-84 | every king target is on the board |
| MoveHelperFacts.KingBitboardIsSteps | Chess/MoveHelper.cs:86-87 | the king bitboard holds exactly the king's steps |
| MoveHelperFacts.PawnBitboardIsAttacks | Chess/MoveHelper.cs:92-110 | the pawn attack entry of a square holds exactly the squares a pawn of the colour there attacks (none on ranks 1 and 8) |
| MoveHelperFacts.FileBitboardIsFile | Chess/MoveHelper.cs:134-140 | a file mask holds exactly the squares on that file |
| MoveHelperFacts.IsolatedIsNeighbours | Chess/MoveHelper.cs:142-155 | the isolated-pawn mask of a file holds exactly the squares on the files next to it |
| MoveHelperFacts.PassedIsFileAndNeighbours | Chess/MoveHelper.cs:142-155 | the passed-pawn mask of a file holds exactly the squares on it and on the files next to it |
| MoveHelperFacts.RankBitboardIsRank | Chess/MoveGenerator.cs:178-179 | the rank mask `RankBitboards[r]`, which the source reads but does not define, holds exactly the squares on that rank |
| MoveHelperFacts.DirectionOfRay | Chess/MoveHelper.cs:112-132 | for two squares on one ray, the lookup at the offset between them gives the ray's direction, except for seven steps along a rank |
| MoveHelperFacts.DirectionOfMultiple | Chess/MoveHelper.cs:112-132 | the lookup at n times a direction's step gives that step, for n from 1 to 7, except for a 7-step rank offset |
| MoveHelperFacts.DirectionRankException | Chess/MoveHelper.cs:118-131 | a1 and h1 lie on one rank seven steps apart, yet the lookup at offset 7 gives 7, the NW step, since 7 is tried before 1 |
| Moves.Move.constructor | Chess/Move.cs:24-30 | a new move records its two squares, the piece on the start square and the piece on the target square, with no promotion and no flag set |
| Moves.Move.PromoteTo | Chess/Move.cs:32-36 | sets the promotion only, and returns the same object |
| Moves.Move.EnPassant | Chess/Move.cs:38-42 | sets the en-passant flag only, and returns the same object |
| Moves.Move.DoublePawnMove | Chess/Move.cs:44-48 | sets the double-push flag only, and returns the same object |
| Moves.Move.Castling | Chess/Move.cs:50-54 | sets the castling flag only, and returns the same object |
| Moves.EqualsIsEquivalence | Chess/Move.cs:56-63 | `Equals` is reflexive, symmetric and transitive, and no move equals null |
| Moves.EqualsIgnoresDetails | Chess/Move.cs:56-63 | two moves are equal exactly when they agree on start and target, whatever their pieces, promotion and flags |
| Moves.HashCodeMatchesEquals | Chess/Move.cs:56-68 | equal moves have equal hash codes, and for on-board squares equal hash codes mean equal moves |
| Moves.SquareToAlgebraicNotation | Chess/Move.cs:82-89 | a square's name is two characters long |
| Moves.SquareRoundTrip | Chess/Move.cs:82-89 | reading back a square's name (file letter, rank digit) gives the square |
| Moves.SquareNamesDistinct | Chess/Move.cs:82-89 | different squares have different names |
| Moves.NotationShape | Chess/Move.cs:70-75 | the notation fails exactly when the promotion code has the type field 28; otherwise it is the start's name, the target's name, and for a promotion one more letter, the promoted type's lower-case letter |
| Moves.LowerOfLetter | Chess/Move.cs:72 | lower-casing a piece's FEN letter gives its type letter, whatever its colour |
| Moves.NotationRoundTrip | Chess/Move.cs:70-89 | reading back the notation of an on-board move gives its start, its target and the type it promotes to |
| Positions.ListRemove | Chess/Board.cs:177 | `List.Remove` shortens a list by one exactly when the value is in it |
| Positions.CastlingRook | Chess/Board.cs:328-349 | a castling to c1, g1, c8 or g8 moves a rook between two different squares of the board |
| Positions.SubmitMoveSpec | Chess/Board.cs:161-372 | a submitted move, with the rook-list and rights updates as written, keeps the board well formed and hands the move to the other colour; it fails only on a castling to a square other than c1, g1, c8 or g8 |
| Positions.UndoMoveSpec | Chess/Board.cs:374-461 | a successful undo keeps the board well formed and hands the move back to the other colour |
| Positions.SubmitNullMoveSpec | Chess/Board.cs:124-146 | a null move keeps the board well formed |
| Positions.UndoNullMoveSpec | Chess/Board.cs:148-158 | a successful null-move undo keeps the board well formed |
| PositionFacts.ListRemoveAbsent | Chess/Board.cs:177 | removing an absent value leaves the list as it is |
| PositionFacts.ListRemoveFirst | Chess/Board.cs:177 | removing a value drops its first occurrence only |
| PositionFacts.ListRemoveMultiset | Chess/Board.cs:177 | removing a value takes one copy of it out of the list's multiset, or none if it is absent |
| PositionFacts.UndoNullAfterSubmitNull | Chess/Board.cs:124-158 | `UndoNullMove` after `SubmitNullMove` gives the board back exactly |
| PositionFacts.SubmitNullEffect | Chess/Board.cs:124-146 | a null move swaps the colours, clears the en-passant square, pushes a state with no move, advances the ply and changes the key by the side code only; squares, lists, material and bitboards stay |
| PositionFacts.ClearRightBits | Chess/Board.cs:313-321 | clearing one right bit keeps a 4-bit mask and removes that right only |
| PositionFacts.KeepColorBits | Chess/Board.cs:300-309 | masking with one colour's two bits keeps exactly that colour's rights |
| PositionFacts.CornerRevokedExact | Chess/Board.cs:313-321 | after the corner checks a right survives exactly when it was held and the move neither starts nor ends on that right's rook corner |
| PositionFacts.RevokedRightsExact | Chess/Board.cs:300-322 | corrected rule: after a move a right survives exactly when it was held, the move is not by that colour's king and the move neither starts nor ends on that right's rook corner |
| PositionFacts.RevokedRightsShrink | Chess/Board.cs:300-322 | the corrected rule never grants a castling right |
| PositionFacts.KingCaptureKeepsRightAsWritten | Chess/Board.cs:300-322 | as written, a white king capturing on h8 keeps black's king-side right, which the corrected rule revokes |
| PositionFacts.RevokedRightsAsWrittenExact | Chess/Board.cs:300-322 | as written: a white king move keeps exactly the black rights held, a black king move exactly the white ones, and any other move keeps a held right exactly when it neither starts nor ends on that right's rook corner; the mask stays below 16 |
| PositionFacts.SquaresRoundTrip | Chess/Board.cs:161-461 | undoing an applicable move after submitting it restores all 64 squares |
| PositionFacts.ApplicableListRoles | Chess/Board.cs:161-372 | on a well-formed board an applicable move's squares are in the piece lists where the update will remove them |
| PositionFacts.CorrectedListsRoundTrip | Chess/Board.cs:161-461 | with the corrected rook-list update, for each code and every move, undoing after submitting gives its piece list back up to order |
| PositionFacts.AsWrittenListsAgree | Chess/Board.cs:177-354 | for a move that is no castling, or a castling to c1, the list update as written equals the corrected one |
| PositionFacts.ListsRoundTrip | Chess/Board.cs:161-461 | for each code and every move but a castling to g1, c8 or g8, undoing after submitting as written gives its piece list back up to order |
| PositionFacts.ListsRoundTripAll | Chess/Board.cs:161-461 | the same for all 32 piece lists at once |
| PositionFacts.SameSquaresNotTooMany | Chess/Board.cs:454-460 | lists with the same contents up to order as lists none of which holds more than ten squares hold at most ten squares each |
| PositionFacts.UndoAfterSubmit | Chess/Board.cs:161-461 | on a well-formed board, for an applicable move that is no castling to g1, c8 or g8 and with no piece list over ten, `SubmitMove` succeeds, `UndoMove` then succeeds, and every field is restored, the piece lists up to order |
| PositionFacts.CastledListsAsWrittenKingside | Chess/Board.cs:350-354 | as written, white castling king side with rooks listed at a1 and h1 turns the rook list into [h1, d1], and undoing it gives [h1, d1, h1], whose contents differ from the original list |
| PositionFacts.CastledListsAsWrittenBlack | Chess/Board.cs:350-354 | as written, black castling king side with rooks listed at a8 and h8 keeps both and adds d1 to black's rook list |
| PositionFacts.CastledListsKingside | Chess/Board.cs:350-354 | with the rook list following the rook, the same castling gives [a1, f1] and undoing it gives [a1, h1] back |
| PositionFacts.BitboardsFrame | Chess/Board.cs:193-366 | each of the four bitboards keeps its bit on every square a move does not touch (start, target, en-passant pawn, castled rook's squares) |
| PositionFacts.SquaresFrame | Chess/Board.cs:176-352 | the squares a move does not touch keep their pieces |
| PositionFacts.ListsFrame | Chess/Board.cs:177-354 | as written, every piece list but those of the moved, placed and captured pieces, the pawn taken en passant and the castling side's rooks is unchanged |
| PositionFacts.SubmitFrame | Chess/Board.cs:161-372 | a move that is not an illegal castling succeeds, and every square it does not touch keeps its piece and its bit in each bitboard, and every list it does not touch is unchanged |
| PositionFacts.UndoPops | Chess/Board.cs:374-388 | a successful undo pops exactly the top state and lowers the ply by one |
| PositionFacts.MakeUnmakeKeepsStack | Chess/Board.cs:161-388 | whatever happens between them, an undo matching a submitted move leaves the stack and the ply as before the submit |
| PositionFacts.NullMakeUnmakeKeepsStack | Chess/Board.cs:124-158 | an undo matching a null move succeeds and leaves the stack and the ply as before the null move |
| Boards.Board.Saved | Chess/Board.cs:126-137 | the pushed state holds the current keys, en-passant square, rights and bitboards, with the given last move |
| Boards.Board.Empty | Chess/Board.cs:30-65 | the fields start empty: no pieces, empty piece lists, zero keys and bitboards, en-passant square -1, ply 0, an empty stack |
| Boards.Board.FromFen | Chess/Board.cs:58-122 | `new Board(fen)` succeeds exactly when the FEN string can be read, and then builds the position the FEN string describes |
| Boards.Board.ReadTurnAndRights | Chess/Board.cs:110-121 | sets the side to move from the second field and one castling bit for each of `Q`, `K`, `q`, `k` present in the third, and nothing else |
| Boards.Board.PlaceRanks | Chess/Board.cs:67-108 | placing the eight ranks succeeds exactly when every rank can be read, and then the board holds the placements of the ranks |
| Boards.Board.PlaceRank | Chess/Board.cs:72-107 | one rank succeeds exactly when each of its characters can be read, and then adds its placements |
| Boards.Board.ReadChar | Chess/Board.cs:75-106 | a digit moves the file on by its value, a piece letter places its piece and moves on one file; any other character fails |
| Boards.Board.PutPieceOn | Chess/Board.cs:81-104 | the square gets the code; a piece is counted in the material key, listed and set on its side's pawn or piece bitboard |
| Boards.Board.SubmitMove | Chess/Board.cs:161-372 | the board's fields become exactly the submitted position, with the rook-list and rights updates as written, and it fails exactly when the source throws |
| Boards.Board.ApplyMove | Chess/Board.cs:163-371 | a move that is not an illegal castling turns the fields into the submitted position |
| Boards.Board.PushState | Chess/Board.cs:163-175 | the saved state goes on top of the stack and the ply goes up by one |
| Boards.Board.MovePieces | Chess/Board.cs:176-367 | squares, piece lists, both keys and bitboards change as the move dictates |
| Boards.Board.MoveOnBoard | Chess/Board.cs:176-367 | squares, piece lists and bitboards change as the move dictates |
| Boards.Board.MoveOnSquares | Chess/Board.cs:176-352 | the squares the move empties and fills change, including the captured en-passant pawn and the castled rook |
| Boards.Board.MoveOnLists | Chess/Board.cs:177-354 | the piece lists lose and gain the squares of the moved, promoted and captured pieces; on a castling, as written, the castling side's rook list loses the value 0 and gains square 3 |
| Boards.Board.MoveKeys | Chess/Board.cs:185-355 | the material key and the position key change as the move dictates |
| Boards.Board.MoveOnMaterial | Chess/Board.cs:185-283 | a promotion swaps one pawn for the new piece, and a capture removes the captured piece |
| Boards.Board.MoveOnKey | Chess/Board.cs:189-355 | the position key is the old one XORed with the entries of each piece that moves or leaves |
| Boards.Board.MoveOnBitboards | Chess/Board.cs:193-366 | the four bitboards change as the move dictates |
| Boards.Board.FinishMove | Chess/Board.cs:264-371 | the en-passant square, the castling rights and the side to move change as the move dictates |
| Boards.Board.RevokeRights | Chess/Board.cs:299-322 | as written: a king move keeps only the other colour's rights; any other move loses the rights whose rook corner it starts or ends on |
| Boards.SubmitMoveStages | Chess/Board.cs:161-372 | submitting is pushing, then the side and rights update, then the piece updates |
| Boards.Board.UndoMove | Chess/Board.cs:374-461 | the fields become exactly the undone position, and it fails exactly when the source throws |
| Boards.Board.UndoLastMove | Chess/Board.cs:376-460 | with the saved move known to fit, the fields become the undone position, failing only when a piece list ends up longer than ten |
| Boards.Board.PopState | Chess/Board.cs:376 | returns the top state and removes it from the stack |
| Boards.Board.RestoreState | Chess/Board.cs:376-388 | restores keys, bitboards, en-passant square and rights from the popped state, lowers the ply and swaps the colours |
| Boards.Board.UnmovePieces | Chess/Board.cs:390-460 | squares and lists are put back, and the result reports whether a piece list is longer than ten |
| Boards.Board.UnmoveOnSquares | Chess/Board.cs:390-451 | the squares the move changed are put back, including the captured en-passant pawn and the castled rook |
| Boards.Board.UnmoveOnLists | Chess/Board.cs:393-447 | the piece lists get back the squares the move took away and lose the ones it added |
| Boards.Board.TooManyOfType | Chess/Board.cs:454-460 | reports whether some piece list holds more than ten squares |
| Boards.Board.SubmitNullMove | Chess/Board.cs:124-146 | the fields become the null-move position, and the board stays well formed |
| Boards.Board.UndoNullMove | Chess/Board.cs:148-158 | the fields become the undone null-move position, and it fails exactly when the source throws |
| Fen.Split | Chess/Board.cs:65-66 | `Split` always gives at least one piece |
| Fen.SplitJoin | Chess/Board.cs:65-66 | splitting loses nothing: no piece holds the separator, and joining the pieces with it gives the string back |
| Fen.SplitCount | Chess/Board.cs:65-66 | there is one piece more than there are separators |
| Fen.FenLetterHasList | Chess/Board.cs:81-87 | a parsed FEN letter is a piece with a piece list |
| Fen.RankPlacements | Chess/Board.cs:72-107 | a rank that can be read places only codes below 32 on squares of the board |
| Fen.RanksPlacements | Chess/Board.cs:68-108 | the same for all ranks from `rank` up |
| Fen.Put | Chess/Board.cs:83-104 | one placement keeps the board's arrays their size and the material key a 64-bit value |
| Fen.After | Chess/Board.cs:68-108 | the same for a run of placements |
| Fen.AfterSnoc | Chess/Board.cs:68-108 | placing one more piece after a run is one more placement step |
| Fen.AfterAppend | Chess/Board.cs:68-108 | two runs of placements in turn are the run of their concatenation |
| Fen.RanksUnfold | Chess/Board.cs:68-70 | ranks are read from rank 1 up, rank r from the placement field's piece 7 - r |
| Fen.CharPlacement | Chess/Board.cs:75-106 | one character places at most one piece, below 32, on the board |
| Fen.RankStep | Chess/Board.cs:73-106 | a rank is read one character after another, stopping at the first failure |
| Fen.CastlingRightsLetters | Chess/Board.cs:113-121 | each castling right is set exactly when its letter (`Q`, `K`, `q`, `k`) occurs in the field, and no other bit is set |
| Fen.ParseFenResult | Chess/Board.cs:58-122 | a read FEN string gives a well-formed board with an empty history, ply 0, no en-passant square and position key 0; white moves exactly when the second field is `w`, and the rights come from the third field |
| Fen.ParseFenTooShort | Chess/Board.cs:65-70 | fewer than three fields, or fewer than eight ranks, make the constructor throw |
| Fen.RankFailsOnBadChar | Chess/Board.cs:75-81 | a character that is neither a digit nor a piece letter makes its rank fail |
| Fen.RanksFailOnBadChar | Chess/Board.cs:68-81 | such a character in any rank still to be read makes the whole read fail |
| Fen.ParseFenBadChar | Chess/Board.cs:58-81 | such a character in any of the eight ranks makes the constructor throw |
| Fen.Expand | Chess/Board.cs:73-106 | the cells a rank describes, digits as runs of empty squares, are codes below 32 |
| Fen.RankPlacementsOfCells | Chess/Board.cs:72-107 | a rank whose cells fit the board places exactly its non-empty cells, from its first square on |
| Fen.RowSquares | Chess/Board.cs:82-83 | placing a row of cells sets exactly the squares of its non-empty cells and keeps every other square |
| Fen.GridSquares | Chess/Board.cs:68-108 | placing the ranks of a grid from rank r up sets every square from rank r on to the grid's cell |
| Fen.ParseFenSquares | Chess/Board.cs:58-108 | when each of the eight ranks describes eight squares the constructor succeeds, and every square holds the piece the FEN string names for its file and rank |
| Fen.ParseFenPlaces | Chess/Board.cs:58-108 | when all ranks can be read the constructor succeeds, and the squares are those the placements give |
| Fen.GridIsFen | Chess/Board.cs:68-70 | the grid of the ranks names on each square the piece of the FEN string's rank 7 - r, file f |
| Fen.PutPieceEffects | Chess/Board.cs:86-87 | a placed piece's square is appended to its own list only, and its count goes up by one |
| Fen.ListsAfterSquares | Chess/Board.cs:87 | after a run, each piece list is the old list followed by the squares placed with that code, in order |
| Fen.PawnCodes | Chess/Board.cs:88-103 | the pawn code tests match the type and colour fields |
| Fen.PutPieceBitboards | Chess/Board.cs:88-103 | a white pawn, a black pawn, another white piece and another black piece each set their square on exactly one of the four bitboards |
| MoveGenerators.MoveGenerator.constructor | Chess/MoveGenerator.cs:35-38 | the generator keeps its board, and every mask and flag starts at zero |
| MoveGenerators.MoveGenerator.Reset | Chess/MoveGenerator.cs:40-55 | the maps, the pin and check masks and the three flags are cleared and the king square read; it fails exactly when the side to move has no king |
| MoveGenerators.MoveGenerator.Setup | Chess/MoveGenerator.cs:57-61 | the masks become those computed for the board, and it fails exactly when the source throws |
| MoveGenerators.MoveGenerator.GenerateBitmasks | Chess/MoveGenerator.cs:383-488 | the masks become those computed from the board, the knight and pawn checks by the loops as written, and it fails exactly when the opponent has no king |
| MoveGenerators.MoveGenerator.ReadSides | Chess/MoveGenerator.cs:385-387 | enemy, friendly and free squares are read off the side's pawn and piece bitboards |
| MoveGenerators.MoveGenerator.GenerateRayAttackMap | Chess/MoveGenerator.cs:341-360 | the ray attack map gains the rays of every enemy rook, queen and bishop |
| MoveGenerators.MoveGenerator.GenRayAttackMapForList | Chess/MoveGenerator.cs:343-359 | one loop adds the rays of each piece of a list |
| MoveGenerators.MoveGenerator.GenRayAttackMapForPiece | Chess/MoveGenerator.cs:362-381 | each ray adds every square up to and including the first piece other than our king |
| MoveGenerators.MoveGenerator.ScanKingRays | Chess/MoveGenerator.cs:389-452 | the king scan records, direction by direction, the pins and checks by enemy sliders |
| MoveGenerators.MoveGenerator.ScanDirections | Chess/MoveGenerator.cs:398-452 | the masks after scanning directions lo to hi - 1, stopping at a double check |
| MoveGenerators.MoveGenerator.Record | Chess/MoveGenerator.cs:431-443 | a pin adds its ray to the pin mask; a check adds its ray to the check mask and raises the check flags |
| MoveGenerators.MoveGenerator.ScanRange | Chess/MoveGenerator.cs:391-396 | the directions scanned: all eight with an enemy queen, otherwise only those of the remaining kinds of slider |
| MoveGenerators.MoveGenerator.FindAlongRay | Chess/MoveGenerator.cs:402-448 | along one ray the scan stops at a second friendly piece or at the first enemy piece, and reports a pin, a check or nothing |
| MoveGenerators.MoveGenerator.DetectLeaperChecks | Chess/MoveGenerator.cs:454-481 | the knight loop, then the pawn loop |
| MoveGenerators.MoveGenerator.DetectKnightChecks | Chess/MoveGenerator.cs:455-467 | each enemy knight adds its attacks to the knight map; as written, once the accumulated map holds our king, the knight is marked as a checker and raises the check flags |
| MoveGenerators.MoveGenerator.DetectPawnChecks | Chess/MoveGenerator.cs:469-481 | the same for enemy pawns and the accumulated pawn map |
| MoveGenerators.MoveGenerator.Finish | Chess/MoveGenerator.cs:483-487 | no check makes every square answer the check; the opponent's attack map is the union of the four maps; it fails exactly when the opponent has no king |
| MoveGenerators.MoveGenerator.IsPinned | Chess/MoveGenerator.cs:490-493 | a square is pinned exactly when pins exist and the square is on the pin mask |
| MoveGenerators.MoveGenerator.IsRayCheckSquare | Chess/MoveGenerator.cs:495-498 | a square answers the check exactly when it is on the check mask |
| MoveGenerators.MoveGenerator.IsMovingAlongRay | Chess/MoveGenerator.cs:134-138 | the direction lookup at the offset of the two squares is the ray's direction or its opposite |
| MoveGenerators.MoveGenerator.GetMoves | Chess/MoveGenerator.cs:64-105 | the moves listed are exactly the king, castling, slider, knight and pawn moves the generator's masks allow, in the source's order |
| MoveGenerators.MoveGenerator.AddOtherMoves | Chess/MoveGenerator.cs:75-102 | appends castlings when not in check, then the piece moves and the pawn moves |
| MoveGenerators.MoveGenerator.AddPieceMoves | Chess/MoveGenerator.cs:78-100 | appends the rook, bishop, queen and knight moves |
| MoveGenerators.MoveGenerator.AddSlidersMoves | Chess/MoveGenerator.cs:78-94 | appends the slides of each piece of a list |
| MoveGenerators.MoveGenerator.AddKnightsMoves | Chess/MoveGenerator.cs:96-100 | appends the jumps of each knight of the list |
| MoveGenerators.MoveGenerator.AddRayMoves | Chess/MoveGenerator.cs:107-133 | appends, for each direction the pin allows, the slides along it |
| MoveGenerators.MoveGenerator.AddRaySlide | Chess/MoveGenerator.cs:115-131 | appends the slides along one ray |
| MoveGenerators.MoveGenerator.AddKnightMoves | Chess/MoveGenerator.cs:258-275 | appends the knight's jumps the masks allow; a pinned knight adds none |
| MoveGenerators.MoveGenerator.AddKingMoves | Chess/MoveGenerator.cs:277-287 | appends one move per square of the king's safe targets, lowest first |
| MoveGenerators.MoveGenerator.AddCastelingMoves | Chess/MoveGenerator.cs:289-339 | appends the castlings of the side to move |
| MoveGenerators.MoveGenerator.AddCastelings | Chess/MoveGenerator.cs:303-338 | appends the king-side, then the queen-side castling of one side |
| MoveGenerators.MoveGenerator.AddKingSideCasteling | Chess/MoveGenerator.cs:305-313 | appends the king-side castling when allowed |
| MoveGenerators.MoveGenerator.AddQueenSideCasteling | Chess/MoveGenerator.cs:314-320 | appends the queen-side castling when allowed |
| MoveGenerators.MoveGenerator.AddPawnMoves | Chess/MoveGenerator.cs:140-257 | appends the pushes unless only captures are asked for, then the captures |
| MoveGenerators.MoveGenerator.AddPawnPushes | Chess/MoveGenerator.cs:150-197 | appends the single pushes, then the double pushes |
| MoveGenerators.MoveGenerator.AddPawnCaptures | Chess/MoveGenerator.cs:199-256 | appends the captures towards file a, then towards file h |
| MoveGenerators.MoveGenerator.CaptureTargets | Chess/MoveGenerator.cs:199-206 | the two capture bitboards: our pawns shifted diagonally, on enemy pieces or the en-passant square, answering the check |
| MoveGenerators.MoveGenerator.AddPawnTargets | Chess/MoveGenerator.cs:156-256 | appends, lowest target first, the moves of each target square of one pawn loop |
| MoveGenerators.MoveGenerator.AddPawnTarget | Chess/MoveGenerator.cs:158-255 | appends the moves of one target square of a pawn loop |
| GenerationFacts.Hits | Chess/MoveGenerator.cs:460 | the test `(1ul << t & b) != 0` asks whether b holds square t |
| GenerationFacts.KingTargetMovesExact | Chess/MoveGenerator.cs:281-286 | the king loop emits one plain move to each square of the targets, as many as the targets hold, and nothing else |
| GenerationFacts.KingMovesAreSafeSteps | Chess/MoveGenerator.cs:277-287 | the king moves are exactly the steps to neighbouring squares that hold no friendly piece and that the opponent does not attack |
| GenerationFacts.DoubleCheckOnlyKingMoves | Chess/MoveGenerator.cs:69-73 | in double check every move listed is a king step, and none is a castling |
| GenerationFacts.KingStepsIgnoreOnlyCaptures | Chess/MoveGenerator.cs:277-287 | asked for captures only, the list still holds every safe king step, quiet ones included |
| GenerationFacts.CastlingMovesExact | Chess/MoveGenerator.cs:289-339 | each castling of the side to move is listed exactly when its right is held, the squares between king and rook are empty and the squares the king crosses are not attacked |
| GenerationFacts.KnightChecksCount | Chess/MoveGenerator.cs:455-467 | corrected loop: the check flag is set exactly when some knight attacks our king, and the double-check flag when a second checker appears |
| GenerationFacts.PawnChecksCount | Chess/MoveGenerator.cs:469-481 | corrected loop: the same for pawns |
| GenerationFacts.LeaperChecksCount | Chess/MoveGenerator.cs:454-481 | corrected loops together count the knights and pawns that attack our king, on top of the slider checks |
| GenerationFacts.FirstKnightCheckerMeaning | Chess/MoveGenerator.cs:455-467 | no knight before the first checking one attacks our king, and that one does |
| GenerationFacts.FirstPawnCheckerMeaning | Chess/MoveGenerator.cs:469-481 | the same for pawns |
| GenerationFacts.KnightChecksAsWrittenAfterHit | Chess/MoveGenerator.cs:455-467 | as written, once the knight map holds our king every further knight raises the check and a second one the double check |
| GenerationFacts.KnightChecksAsWrittenHit | Chess/MoveGenerator.cs:455-467 | as written, the first knight that attacks our king sets the check, and double check follows from an earlier check or any later knight |
| GenerationFacts.KnightChecksAsWrittenCount | Chess/MoveGenerator.cs:455-467 | the knight loop as written sets the check exactly when some knight attacks our king, and the double check when there was a check already or at least one knight is listed after the first checking one |
| GenerationFacts.PawnChecksAsWrittenAfterHit | Chess/MoveGenerator.cs:469-481 | as written, once the pawn map holds our king every further pawn raises the check and a second one the double check |
| GenerationFacts.PawnChecksAsWrittenCount | Chess/MoveGenerator.cs:469-481 | the same for the pawn loop as written |
| GenerationFacts.LeaperChecksAsWrittenCount | Chess/MoveGenerator.cs:454-481 | both loops as written, from maps without our king: a check exactly when a knight or pawn attacks our king, and a double check also for any knight or pawn listed after the first checking one of its kind |
| GenerationFacts.KnightChecksAsWrittenDoubleCounts | Chess/MoveGenerator.cs:455-467 | as written, a checking knight followed by one that does not check reports a double check; the corrected loop reports a single check |
| GenerationFacts.PawnChecksAsWrittenDoubleCounts | Chess/MoveGenerator.cs:469-481 | as written, a checking pawn followed by one that does not check reports a double check, with one checker only |
| GenerationFacts.KnightExample | Chess/MoveGenerator.cs:455-467 | a knight on c2 attacks a1 and a knight on h8 does not, so the board of the knight finding meets the lemma's conditions |
| GenerationFacts.PawnExample | Chess/MoveGenerator.cs:469-481 | a black pawn on b2 attacks a1 and one on h7 does not, so the board of the pawn finding meets the lemma's conditions |
| GenerationFacts.Uncoloured | Chess/MoveGenerator.cs:118-120 | a square holding neither colour's piece is empty |
| GenerationFacts.RayOnBoard | Chess/MoveGenerator.cs:115-117 | every step of a ray up to the edge is on the board |
| GenerationFacts.RayMoveStepsExact | Chess/MoveGenerator.cs:115-131 | the inner loop of `AddRayMoves` lists exactly the slides to squares before the first blocker, the enemy one included, that are captures when only captures are asked for and that answer the check |
| GenerationFacts.RayMoveDirectionsExact | Chess/MoveGenerator.cs:107-133 | `AddRayMoves` lists exactly such slides along the directions given, only along the pin line for a pinned piece |
| GenerationFacts.SliderMovesSound | Chess/MoveGenerator.cs:78-94 | every slider move listed goes to a square its ray allows |
| GenerationFacts.KnightTargetMovesExact | Chess/MoveGenerator.cs:263-274 | the knight loop lists exactly the jumps to squares without a friendly piece, captures when only captures are asked for, answering the check |
| GenerationFacts.KnightMovesExact | Chess/MoveGenerator.cs:258-275 | a pinned knight has no moves, any other knight exactly the jumps allowed |
| GenerationFacts.KnightsMovesSound | Chess/MoveGenerator.cs:96-100 | every knight move listed is an allowed jump |
| GenerationFacts.SinglePushMeaning | Chess/MoveGenerator.cs:152-154 | a single-push target is free, answers the check and has our pawn one rank behind it |
| GenerationFacts.DoublePushMeaning | Chess/MoveGenerator.cs:178-179 | a double-push target is on the fourth rank from our side, it and the square it passes are free, it answers the check, and our pawn is two ranks behind it |
| GenerationFacts.CaptureWestMeaning | Chess/MoveGenerator.cs:202-204 | a capture target towards file a holds an enemy piece or is the en-passant square, answers the check, and has our pawn diagonally behind it |
| GenerationFacts.CaptureEastMeaning | Chess/MoveGenerator.cs:202-206 | the same towards file h |
| GenerationFacts.PawnTargetsMeaning | Chess/MoveGenerator.cs:152-206 | every square of each of the four pawn bitboards has the meaning above |
| GenerationFacts.PawnTargetMovesShape | Chess/MoveGenerator.cs:158-255 | a target gives no move exactly when the pawn is pinned and the move leaves the pin line; otherwise its moves go from the pawn to the target, promote exactly on the last rank (to queen, rook, bishop and knight, four moves), and are double pushes or en-passant captures exactly where the loop and the square say so |
| GenerationFacts.PawnTargetLoopMembers | Chess/MoveGenerator.cs:156-256 | a pawn loop lists, for every target square of its bitboard, all the moves of that target, and nothing else |
| GenerationFacts.PawnLoopMovesSound | Chess/MoveGenerator.cs:156-256 | every move of a pawn loop answers the check and is no castling, and a capture loop's moves go to enemy pieces or the en-passant square |
| GenerationFacts.PawnMovesSound | Chess/MoveGenerator.cs:140-257 | the same for all pawn moves; with only captures asked for, only captures come out |
| GenerationFacts.GetMovesFacts | Chess/MoveGenerator.cs:64-105 | castlings are listed only out of check; in check every move is by the king or lands on a square that answers the check; asked for captures only, every move after the king's is a castling, a capture or an en-passant capture |
| GenerationFacts.PieceMovesSound | Chess/MoveGenerator.cs:78-100 | slider and knight moves go to allowed squares, and in check to squares that answer it |
| GenerationFacts.FinishMasks | Chess/MoveGenerator.cs:483-487 | out of check every square answers it; the attack map is the union of the king, knight, ray and pawn maps; the flags stay |
| GenerationFacts.SetupForgetsOldMasks | Chess/MoveGenerator.cs:40-61 | `Setup` gives the same masks whatever the previous masks were |
| GenerationFacts.SetupFindsKings | Chess/MoveGenerator.cs:40-61 | a successful setup found a king of each colour, and took our king's square from the first entry of its list |
| GenerationExamples.RankScanSetup | Chess/MoveGenerator.cs:383-488 | for a white king on a5 with an empty a-file, a white pawn on b5, a black pawn on c5 and an enemy rook but no queen, bishop or knight, `Setup` succeeds with no pin, no check and every square answering a check |
| GenerationExamples.EnPassantListedOffPinMask | Chess/MoveGenerator.cs:199-255 | a white en-passant capture towards file h is listed whenever the capturing pawn is off the pin mask and the target answers any check; no test looks along the rank |
| GenerationExamples.RankExposed | Chess/MoveGenerator.cs:398-448 | with b5 to g5 empty and a black rook on h5, the king scan from a white king on a5 finds a check along the rank |
| GenerationExamples.EnPassantExposesKingAsWritten | Chess/MoveGenerator.cs:199-255 | as written, in such a position (`RankPin`: king a5, pawn b5, black pawn c5 after a double push, rook h5) b5xc6 en passant is listed, and after it b5 to g5 are empty and the white king is in check from the rook |
| GenerationExamples.RankPinHasShape | Chess/MoveGenerator.cs:199-255 | the position `RankPin` has the shape the lemmas above ask for |
| Evaluations.BuildPieceValues | Chess/Evaluation.cs:110-119 | each white piece gets its value (pawn 100, knight and bishop 325, rook 550, queen 1000), each black piece the negated one, and every other code 0 |
| Evaluations.TouchedIsPieceOrType | Chess/Evaluation.cs:121-125 | the loop over the twelve piece codes writes exactly the codes that are pieces or piece types |
| Evaluations.BuildColorIndependent | Chess/Evaluation.cs:121-125 | the colour-independent value of a piece, and of its type, is the absolute value of the piece's value |
| Evaluations.TypeValueOfPiece | Chess/Evaluation.cs:123-124 | after the loop, a piece and its type both hold the absolute value of the piece |
| Evaluations.BuildRow | Chess/Evaluation.cs:129-154 | one piece's row: the table of its type, read at the square for white and at the mirrored square for black; queens get zero |
| Evaluations.BuildPositionTables | Chess/Evaluation.cs:127-155 | every piece code gets its row; other codes have no row |
| Evaluations.BuildTables | Chess/Evaluation.cs:107-156 | the static constructor's three tables, as above |
| Evaluations.PieceValuesOpposite | Chess/Evaluation.cs:110-119 | black's value of each type is the negation of white's, and white's are the five constants |
| Evaluations.ColorIndependentBothIndices | Chess/Evaluation.cs:121-125 | the colour-independent value is the same at the type and at both pieces, and equals the absolute piece value |
| Evaluations.MirrorFlipsRank | Chess/Evaluation.cs:76-86 | the mirror keeps the file and flips the rank |
| Evaluations.MirrorInvolution | Chess/Evaluation.cs:76-86 | mirroring twice gives the square back |
| Evaluations.PositionTablesMirrored | Chess/Evaluation.cs:127-155 | black's position value at a square is white's at the mirrored square and the other way round; the queen's values are all zero |
| Evaluations.Tally | Chess/Evaluation.cs:293-297 | the twelve piece counts, in the order of the piece-type list |
| Evaluations.Evaluation.CountMaterial | Chess/Evaluation.cs:290-299 | the sum of value times count over the twelve piece codes |
| Evaluations.MaterialBalance | Chess/Evaluation.cs:290-299 | that sum is the value-weighted difference of the white and black counts of each type |
| Evaluations.MaterialScoreSwapped | Chess/Evaluation.cs:163-177 | exchanging the colours of all pieces negates the material score, bishop pair and closedness terms included |
| Evaluations.Evaluation.ProbeMaterial | Chess/Evaluation.cs:158-181 | the cached score of the board's material key, or else the score of its counts, which is then cached under the key; a consistent cache stays consistent and serves the score of the counts when the key records them |
| Evaluations.Evaluation.constructor | Chess/Evaluation.cs:105-156 | the tables are built and the material database starts empty, hence consistent |
| Evaluations.Evaluation.Evaluate | Chess/Evaluation.cs:183-288 | the score is the probed material plus the positional terms, from the side to move's point of view; with a consistent cache and a key that records the counts it is the board's static score |
| Evaluations.PositionalScore | Chess/Evaluation.cs:192-285 | the four positional terms of `Evaluate` together |
| Evaluations.PositionValues | Chess/Evaluation.cs:192-206 | the white and black sums of the position-table values of each side's pieces |
| Evaluations.ListValues | Chess/Evaluation.cs:200-203 | the position-table values of one piece list |
| Evaluations.PawnScores | Chess/Evaluation.cs:208-235 | the pawn terms of both sides |
| Evaluations.PawnScore | Chess/Evaluation.cs:211-234 | the sum of the pawn terms of one side's pawn list |
| Evaluations.PawnSquareScore | Chess/Evaluation.cs:213-233 | the term of one pawn |
| Evaluations.PawnTermParts | Chess/Evaluation.cs:213-233 | a pawn's term is -20 when isolated plus the passed-pawn bonus of its rank counted from its own side when passed |
| Evaluations.IsolatedPawnMeaning | Chess/Evaluation.cs:216-228 | a pawn counts as isolated exactly when no pawn of its side stands on a neighbouring file |
| Evaluations.PassedPawnMeaning | Chess/Evaluation.cs:219-231 | a pawn counts as passed exactly when no enemy pawn stands on its file or a neighbouring one, whatever the ranks |
| Evaluations.DisjointSquares | Chess/Evaluation.cs:216-219 | an intersection test is zero exactly when the two bitboards share no square |
| Evaluations.RookScores | Chess/Evaluation.cs:237-274 | the rook terms of both sides |
| Evaluations.RookScore | Chess/Evaluation.cs:241-272 | the sum of the rook terms of one side's rook list |
| Evaluations.OpenFileMeaning | Chess/Evaluation.cs:251-269 | a file is open for a side exactly when none of its pawns stands on it |
| Evaluations.RookFileScoreValues | Chess/Evaluation.cs:245-254 | apart from the doubled-rook bonus for a rook on the file of the rook before it in the list, a rook scores 25 on a file without pawns, 15 with only enemy pawns, 5 with only own pawns and -10 with both |
| Evaluations.PawnShields | Chess/Evaluation.cs:276-283 | the pawn shields of both kings, read at the first entry of each king list |
| Evaluations.PawnShieldMeaning | Chess/Evaluation.cs:282-283 | the shield counts the own pawns one king step from the king |
| Search.KillerValueMeaning | Chess/AI.cs:121-132 | a move scores (3 - i) * 1000000 when slot i is the first to hold a move between the same squares with no empty slot before it, and 0 otherwise |
| Search.KillerValueSkips | Chess/AI.cs:123-130 | full slots holding other moves do not change the killer value |
| Search.KillerValueRange | Chess/AI.cs:121-132 | the killer value is a multiple of 1000000 between 0 and 3000000 |
| Search.Rotated | Chess/AI.cs:238-240 | the killer row after a cutoff: the move in front, the two older killers shifted back |
| Search.RotatedKillerFirst | Chess/AI.cs:236-241 | after the update the stored move gets the highest killer value |
| Search.ColorIndependentRange | Chess/AI.cs:141-142 | every colour-independent piece value lies between 0 and the queen's 1000 |
| Search.PieceTermsRange | Chess/AI.cs:141-142 | the capture and promotion terms of a move's importance lie between -100000 and 1001000 |
| Search.PvMoveFirst | Chess/AI.cs:134-147 | the move of the previous principal variation at this depth is ordered before every other move, whatever the killers and pieces |
| Search.Keys | Chess/AI.cs:222 | the moves of a list of (importance, move) pairs, in order |
| Search.InsertMultiset | Chess/AI.cs:222 | inserting a pair into the sorted list adds exactly that pair |
| Search.InsertDescending | Chess/AI.cs:222 | inserting a pair keeps the list in descending order of importance |
| Search.SortDescendingCorrect | Chess/AI.cs:222 | the descending sort is a permutation of its input and is in descending order of importance |
| Search.KeysSort | Chess/AI.cs:222 | the sorted moves are a permutation of the moves |
| Search.OrderedByImportance | Chess/AI.cs:222 | the ordered moves are a permutation of the moves, by non-increasing importance |
| Search.AI.constructor | Chess/AI.cs:110-119 | the AI keeps its board, has a generator for it and an empty 1024 by 3 killer table |
| Search.AI.GetKillerMoveValue | Chess/AI.cs:121-132 | the killer value of the move in the row of the current ply |
| Search.AI.MoveImportance | Chess/AI.cs:134-147 | the sum of the killer value, 10000000 for the principal-variation move, the capture and promotion values and -10 for a target the opponent's pawns attack |
| Search.AI.OrderMoves | Chess/AI.cs:222 | the moves ordered by descending importance, a permutation of the moves; it fails exactly where a non-empty list would index the killer or piece tables out of range |
| Search.AI.KeyMoves | Chess/AI.cs:222 | every move paired with its importance, in the order of the list |
| Search.AI.StoreKiller | Chess/AI.cs:236-241 | the killer row of the current ply is rotated with the move in front; the other rows stay |
| Search.AI.UpdatePv | Chess/AI.cs:248-249 | the variation becomes the move followed by the child's variation; the rest of it stays |
| Search.AI.Generate | Chess/AI.cs:171-172 | the generator is set up for the board and the moves are exactly what the generator lists for it |
| Search.AI.FindBestMove | Chess/AI.cs:149-160 | the old variation and the depth are recorded and the root is counted; a finished search leaves the board's state stack as it was, the variation has depth entries, and its score lies in the window or is a draw or a mate score |
| Search.AI.DeepEval | Chess/AI.cs:162-254 | a finished search leaves the state stack and the ply as before; a position without moves scores mate in check and a draw otherwise, a repeated one a draw; any other score lies in the window, is a draw, a mate score or a null-move cutoff at or above beta; a score above beta that is neither a draw nor a mate score needs the null move allowed, a position out of check and a depth of at least 3; whatever the outcome, the killer rows below the ply are unchanged |
| Search.AI.Expand | Chess/AI.cs:194-253 | quiescence at depth 0, futility pruning at depth 1, then the deeper search, with the same bounds, killer rows and null-move condition for a score above beta |
| Search.AI.Futility | Chess/AI.cs:197-206 | the static evaluation is the preference-signed sum of the probed material score and the positional terms, the static score when the database is consistent; it prunes exactly when that evaluation plus 325 is below alpha, and then the quiescence score lies in the window and the state stack and ply are as before; when it does not prune, the generator's masks are untouched |
| Search.AI.StaticEval | Chess/AI.cs:199 | the evaluation of the unchanged board, as in `Search.AI.Futility` |
| Search.AI.Deepen | Chess/AI.cs:208-253 | the null-move test, then the move loop, with the same bounds and killer rows; a score above beta comes only from a null move made when allowed, out of check and at a depth of at least 3 |
| Search.AI.NullMoveSearch | Chess/AI.cs:208-219 | called only out of check at a depth of at least 3, the null move is made, searched with the null window (-beta, -beta + 1) and taken back; the state stack and ply are as before, the negated score meets that window's bound one stack level deeper, and the killer rows up to the ply are unchanged |
| Search.AI.SearchMoves | Chess/AI.cs:221-253 | the moves are searched in order of importance; the result is beta, alpha or an improvement below beta, and an improvement puts one of the moves at the head of the variation; the killer rows below the ply are unchanged, and the row of the ply is unchanged or, on a beta result, rotated with a quiet listed move in front |
| Search.AI.SearchLoop | Chess/AI.cs:222-251 | the loop over the ordered moves, with the same bounds and killer rows |
| Search.AI.SearchChild | Chess/AI.cs:227-232 | the move is made, the child searched with the negated window and the move taken back; the state stack and ply are as before, the negated score meets the child's bound one stack level deeper, and the killer rows up to the ply are unchanged |
| Search.AI.QuiesceneSearch | Chess/AI.cs:256-288 | the static evaluation stands pat; a finished search leaves the state stack and the ply as before and scores inside the window |
| Search.AI.QuiesceMoves | Chess/AI.cs:270-287 | the captures are searched in order of importance; the result is beta, alpha or an improvement below beta |
| Search.AI.QuiesceLoop | Chess/AI.cs:272-285 | the loop over the ordered captures, with the same bounds |
| Search.AI.QuiesceChild | Chess/AI.cs:274-276 | the capture is made, searched with the negated window and taken back; the state stack and ply are as before and the score lies in the window |

## Left out

- Chess.Client/Program.cs is not part of this model. It holds the UCI command loop, console input and output, the wall-clock budget, and the iterative-deepening and aspiration driver around `FindBestMove`.
- Console output is left out: the `info currmove` line (Chess/AI.cs:224-225), `MoveHelper.PrintBitboard` (Chess/MoveHelper.cs:158-176) and `Board.ToString` (Chess/Board.cs:463-475). It does not affect any result.
- `System.Random` and `ZobristKey.NextULong` (Chess/ZobristKey.cs:13, 26-31) are left out. The hash table is built from an arbitrary stream of values passed in as a parameter.
- The transposition dictionary (Chess/AI.cs:104, 152, 230-231) is left out. It is written but never read.
- The commented-out `EvalScore` class (Chess/AI.cs:9-89) is left out, since it is not code.
- The evaluator is static in the source. The model makes it the class `Evaluations.Evaluation`, with the `MaterialDatabase` dictionary as a `map` field. The search receives it as a constructor parameter.
- LINQ's `OrderByDescending` is modelled by the sort `Search.SortDescending`. The proof fixes the result only as a permutation in non-increasing order of importance, so the order among moves of equal importance is not stated.
- The search's termination uses one fact about LINQ: `OrderByDescending` computes every key, and so reads `KillerMoves[board.Ply]`, before the loop body runs. Every level of the quiescence search with a non-empty move list therefore throws once the ply reaches 1024, which the model reports as `Aborted`. That bound is the termination measure.
- Search.AI.DeepEval: where the source would throw, the search returns `Aborted`, and nothing is said about the board after such a run. This covers: a ply outside the killer table, a board whose state is not well formed, a piece code outside the tables, a failed `SubmitMove` or `UndoMove`, and a generator that finds no king.
- Search.AI.NullMoveSearch: the null-move child's variation array is discarded, as in the source, so its content is not described.
- Search.AI.NullMoveSearch does not state the child's depth, depth - 3; its contract bounds the score by the child's window only.
- Search.AI.Futility does not itself state that it runs only at depth 1; `Search.AI.Expand` makes that call, and its contract states the bounds of both paths together.
- PositionFacts.UndoAfterSubmit excludes castlings to g1, c8 and g8. As written, the rook list is then not restored (`PositionFacts.CastledListsAsWrittenKingside`), and `PositionFacts.CorrectedListsRoundTrip` states the round trip for the corrected update.
- PositionFacts.ListsRoundTrip excludes castlings to g1, c8 and g8, for the same reason.
- PositionFacts.ListsRoundTripAll excludes castlings to g1, c8 and g8, for the same reason.
- Positions.WellFormed does not relate the piece lists to the squares. As written, the rook list stops matching the rooks on the board after a castling to g1, c8 or g8.
- Search.AI.FindBestMove does not state which moves the returned variation holds. `Search.AI.SearchMoves` states that a score strictly inside the window puts one of the listed moves at the variation's head.
- Moves.Move.constructor: the builders return `this`, so in the source every reference to a move sees its later changes. The model works on the value of a fully built move, since no move is changed after the generator builds it.
- Boards.Board.FromFen does not read the en-passant field, the clocks or the position key, just as the source does not. `EnPassentSquare` stays -1 and `positionKey` stays 0.
- The perft counts and fixed move counts of ChessTests are left out. They are properties of whole search trees and are far too large to state here. The lone king on e5 of ChessTests/BasicMoveTests.cs:14 is covered by `GenerationFacts.KingMovesAreSafeSteps` and `MoveHelperFacts.KingListIsSteps`, but is not stated as an example.
- The NUnit test fixtures and their logging are left out.

## Findings

| source | as written | input that shows it | evidently intended | confidence | as-written member | corrected member |
|---|---|---|---|---|---|---|
| Chess/BitboardUtilities.cs:21-29 | `ShiftLeft` moves every bit one square up in index and clears file h; `ShiftRight` moves every bit one square down and clears file a. Each moves the pieces the wrong way, and a piece on the edge file wraps to the next rank | the board of ChessTests/BitboardTests.cs:15-45 (squares 28, 32 and 47): as written, `ShiftLeft` gives square 48 and not 27, and `ShiftRight` gives 31 and not 29 | `ShiftLeft` moves every piece one file towards file a and `ShiftRight` towards file h, dropping the edge file, as the test expects | high, not executed | BitboardUtilities.AsWrittenFailsTest | BitboardUtilities.ShiftLeftMeetsTest, BitboardUtilities.ShiftRightMeetsTest |
| Chess/Board.cs:353-354 | a castling updates the rook list with `Remove(0)` and `Add(3)`: it removes the value 0 and adds square d1, whatever the colour and side | white castles king side with its rooks listed at a1 and h1: the list becomes [h1, d1] instead of [a1, f1], and the undo leaves [h1, d1, h1] | remove the rook's start square and add its end square, so that the undo restores the list | high, not executed | PositionFacts.CastledListsAsWrittenKingside, PositionFacts.CastledListsAsWrittenBlack | PositionFacts.CastledListsKingside, PositionFacts.CorrectedListsRoundTrip |
| Chess/Board.cs:300-322 | the corner checks that revoke a castling right run only for moves that are not king moves | a white king captures on h8 while black holds its king-side right: the right survives, although the h8 rook is gone | a move to or from a rook's corner revokes that corner's right, whichever piece makes it | medium, not executed | PositionFacts.KingCaptureKeepsRightAsWritten, PositionFacts.RevokedRightsAsWrittenExact | PositionFacts.RevokedRightsExact |
| Chess/MoveGenerator.cs:459-466 | each knight's test for a check reads the knight attack map accumulated so far, not that knight's own attacks | white king on a1, black knights listed at c2 and then h8: the knight on h8 is counted as a second checker, so the king is reported in double check | a knight checks when its own attacks hold the king | high, not executed | GenerationFacts.KnightChecksAsWrittenDoubleCounts, GenerationFacts.KnightChecksAsWrittenCount | GenerationFacts.KnightChecksCount |
| Chess/MoveGenerator.cs:473-480 | each pawn's test for a check reads the pawn attack map accumulated so far | white king on a1, black pawns listed at b2 and then h7: reported as double check | a pawn checks when its own attacks hold the king | high, not executed | GenerationFacts.PawnChecksAsWrittenDoubleCounts, GenerationFacts.PawnChecksAsWrittenCount | GenerationFacts.PawnChecksCount |
