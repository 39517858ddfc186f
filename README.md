# SeleneChessBot in Dafny

A model of the board, notation, move-generation and bookkeeping core of
SeleneChessBot, a chess engine written in Python. It covers the current engine
under `selene_chess_bot/` and the older copy of the same engine in the
top-level `board/`, `pieces/`, `game/`, `pgn/` and `core/` folders. Each model
takes the form of its source. Where a Python object changes its fields, the
model is a class whose methods say the new state. Pure lookups and
conversions are functions. Loops are methods with invariants, proved against
a function that specifies them.

Modules, one per component:

- `Python` (python.dfy): the parts of Python's runtime the engine relies on.
  These are exceptions as a `Result`, negative list indexing, `list.remove`,
  `reverse`, and the string operations `split`, `strip`, `join`, `replace`,
  `upper`, `lower`, `str(int)` and `int(str)`.
- `Notation` (notation.dfy): the colour, piece-name and rook-side enums, and
  the conversions between `(row, column)` and square names such as `e4`.
- `Fen` (fen.dfy) and `Zobrist` (zobrist.dfy): the FEN writer and reader of
  `GameEncoder` (section 16.1 of the PGN Standard), the Zobrist key table,
  and the position hash, given as eight big-endian bytes.
- `SanMove` (piece_move.dfy) and `SanMoveExamples` (piece_move_examples.dfy):
  the `PieceMove` decoder of moves in Standard Algebraic Notation (section
  8.2.3 of the PGN Standard), with worked decodings.
- `ChessBoard` (board.dfy) and `BoardEncoding` (board_encoder.dfy): the board
  store and its one-hot 8x8x12 encoding. The store holds the grid, the piece
  lists, the counters and the castling rights, all mutated in place.
- `Scans` (scans.dfy), `LegalMoves` (legal.dfy), `PawnRules` (pawn.dfy),
  `KingRules` (king.dfy), `RookRules` (rook.dfy) and `Moving` (moving.dfy):
  the move-generation rules and the in-place moves.
  - Rules: the ray scans, the pin and check filter, pawn pushes, captures
    and promotion, king moves and castling, and rook moves.
  - Moves: `move_to`, `castle` and `coronate`.
- `GameState` (game.dfy) and `FenGame` (game_fen.dfy): the bookkeeping of
  `Game` and `Game.parse_fen`.
  - Bookkeeping: the side to move, the move log, the turn counter, the
    fifty-move counter (Article 9.3 of the FIDE Laws of Chess), position
    repetition (Article 9.2), and the draw, termination and material flags.
  - Chess legality is an oracle.
- `CheckDetection` (check_detector.dfy), `MateTree` (move_node.dfy) and
  `MateSearch` (checkmate_detector.dfy): the check filter, the AND/OR
  labelling of the forced-mate tree, and the bounded forced-mate search with
  its shortest routes. All three work over an oracle for legal moves and for
  playing a move.
- `SearchGraph` (state_node.dfy), `StateTable` (state_manager.dfy) and
  `Checkpoints` (checkpoint.dfy): the Monte Carlo search graph's counters and
  links, the get-or-create table of positions, and the breadth-first
  flattening and relinking of a checkpoint.
- `Movetext` (pgn.dfy): reading `1.e4 e5 2.Nf3 …` through a game, and
  writing a dictionary of move pairs back as movetext.
- `LegacyBoard`, `LegacyRules`, `LegacyGame` and `LegacyMove`
  (legacy_board.dfy, legacy_rules.dfy, legacy_game.dfy, legacy_move.dfy):
  the older board, pieces, move lists, game controller and move decoder.

When a Python call raises, the model returns `Err` with the exception's
kind. Where the code as written always raises, or does something other than
what it evidently means, the model gives both readings. A member named
`…AsWritten`, or a lemma exhibiting the failure, models the code. The
corrected member, with its properties proved, is what the rest of the model
uses (see "## Findings").

## Model

| member | source | states |
|---|---|---|
| ChessBoard.Piece.constructor | selene_chess_bot/pieces/piece.py:134-189 | a new piece has the given kind, colour, board, rook side and square, has not moved, has no captor, no move story and is not capturable en passant |
| ChessBoard.Piece.AddMoveToStory | selene_chess_bot/pieces/piece.py:213-218 | the story grows by exactly the (move number, row, column) entry; the square and the other flags are unchanged |
| ChessBoard.Piece.Capture | selene_chess_bot/pieces/piece.py:220-221 | the captor is recorded and the piece counts as captured; for a rook with a side (the override of selene_chess_bot/pieces/rook.py:31-34), that side's castling right of its colour is cleared first and nothing else on the board changes |
| ChessBoard.Lookup | selene_chess_bot/board/board.py:476-482 | `board[row][column]` with Python indexing: an IndexError exactly when an index is outside -8..7, the cell itself on the board |
| ChessBoard.Store | selene_chess_bot/board/board.py:767-768 | `board[row][column] = p`: an IndexError exactly when an index is outside -8..7; otherwise that cell reads back `p` and every other row and column is unchanged |
| ChessBoard.Board.constructor | selene_chess_bot/board/board.py:130-206 | a new board has no grid and no pieces, every castling right, 16 pieces counted per colour and is not set up |
| ChessBoard.Board.GetSquareOrPiece | selene_chess_bot/board/board.py:452-482 | an IndexError exactly when the lookup fails; an empty square comes back as its coordinates, an occupied one as the piece on that square |
| ChessBoard.Board.IsPositionEmpty | selene_chess_bot/board/board.py:600-616 | true exactly when the looked-up cell holds no piece; an IndexError exactly when the lookup fails |
| ChessBoard.Board.GetPiece | selene_chess_bot/board/board.py:582-598 | the list of that colour and kind; a KeyError exactly when the dictionary has no such list |
| ChessBoard.Board.DecrementPieceCount | selene_chess_bot/board/board.py:272-283 | the counter of the given colour drops by one, the other counter and the rest of the board are unchanged |
| ChessBoard.Board.RemoveCastlingRights | selene_chess_bot/board/board.py:667-675 | both castling rights of the colour are off; the other colour's rights and the rest of the board are unchanged |
| ChessBoard.Board.CreateEmptyBoard | selene_chess_bot/board/board.py:394-402 | the grid is 8 by 8 and every cell is empty; nothing else changes |
| ChessBoard.Board.RemovePiece | selene_chess_bot/board/board.py:677-690 | the cell at the piece's own position is cleared first (IndexError off the board); it succeeds exactly when the piece is in its list, which then loses its first occurrence; KeyError for a missing list and ValueError for a missing piece leave the cleared cell behind |
| ChessBoard.Board.AddPiece | selene_chess_bot/board/board.py:285-392 | a second king after set-up is refused; the square comes from the algebraic name, the piece's own position or (row, column); an occupied square is a ValueError when checked; on success the piece is stored on that square and appended to its list, a named piece is fresh with the given kind, colour and rook side; on any error grid and lists are unchanged |
| ChessBoard.Board.IsPositionOnBoard | selene_chess_bot/board/board.py:237-270 | a given position decides alone; otherwise both row and column must be given and within 0..7 |
| ChessBoard.Board.ManageCapture | selene_chess_bot/board/board.py:1144-1173 | the victim stands on the target, or one row behind it for an en-passant capture; an empty target is no capture, an empty en-passant square is an AttributeError; a victim's colour counter drops, it records itself as captor (rook side rights cleared) unless taken en passant, its cell is cleared for en passant, and it leaves its list |
| ChessBoard.Board.UpdateBoard | selene_chess_bot/board/board.py:732-770 | the capture is settled first: its error (IndexError for a victim square outside Python's range, AttributeError for an empty en-passant square, or the victim missing from its list) is returned with only the en-passant victim's cell cleared; otherwise the victim's colour counter drops, it leaves its list, it records itself as captor unless taken en passant and a captured rook clears its side's right; then an index outside Python's range is an IndexError that touches no cell but the old one; on success the piece stands on the new square, the old square is empty when it differs, and every other cell except an en-passant victim's is unchanged |
| ChessBoard.Board.GetBoardRepresentation | selene_chess_bot/board/board.py:772-862 | the rows of the view, reversed when asked, each cell written as `RepresentationCell` writes it |
| ChessBoard.RepresentationCell | selene_chess_bot/board/board.py:818-847 | without square names an empty cell is "." and a piece its letter, lower case for black when case marks the colour |
| ChessBoard.RepresentationReverse | selene_chess_bot/board/board.py:812-816 | the reversed representation is the plain one upside down |
| ChessBoard.Board.SetupBoard | selene_chess_bot/board/board.py:864-906 | refused with a ValueError once set up; otherwise it succeeds exactly when every non-"." cell names a piece on the board, and then every cell shows what the set-up names and the board is set up |
| ChessBoard.Board.SetupRow | selene_chess_bot/board/board.py:892-904 | one row of the set-up succeeds exactly when the row is acceptable, fills that row with the cells it names and leaves the other rows alone |
| ChessBoard.SetupCell | selene_chess_bot/board/board.py:893-900 | "." is an empty cell, a name that is no piece a ValueError |
| ChessBoard.SetupReadsRepresentation | selene_chess_bot/board/board.py:772-906 | `_setup_board` reads back each cell `get_board_representation(upper_case_diff=True)` writes |
| ChessBoard.Board.PlacePawns | selene_chess_bot/board/board.py:958-980 | rows 1 and 6 hold the pawns of the starting position, other rows unchanged, each pawn list grows by 8 |
| ChessBoard.Board.PlaceBackRanks | selene_chess_bot/board/board.py:982-1142 | rows 0 and 7 hold the back ranks of the starting position, the rooks carrying their sides, other rows unchanged, each list grows by its count |
| ChessBoard.Board.CreateInitialBoardSetUp | selene_chess_bot/board/board.py:421-450 | a ValueError once set up; otherwise every cell is the starting position, every list grows by the starting count of its kind, the four corner rooks carry their sides and the board is set up |
| ChessBoard.Unlisted | selene_chess_bot/board/board.py:690 | `remove(p)` on the piece's list: a KeyError without that list; succeeds exactly when the piece is there, removing one occurrence and leaving the other lists alone |
| ChessBoard.Board.Relocate | selene_chess_bot/board/board.py:767-768 | the old cell is emptied and the piece stands on the new one, under Python indexing; every other cell keeps its piece; an index outside Python's range is an IndexError that touches no cell but the old one; lists and counters are unchanged |
| ChessBoard.Board.Place | selene_chess_bot/board/board.py:285-392 | one `add_piece` of the set-up: a fresh piece of that kind, colour and rook side on an empty square, appended to its list, nothing else changed |
| ChessBoard.Board.PlaceColumn | selene_chess_bot/board/board.py:982-1142 | the white and the black piece of one column of the back ranks stand on their squares; every other cell and every other list is unchanged, and each list of that kind grows by one |
| ChessBoard.Board.SetupRows | selene_chess_bot/board/board.py:893-904 | the rows of the representation are read in turn: it succeeds exactly when every cell is readable, and then each square holds the piece its cell names |
| BoardEncoding.PieceChannel | selene_chess_bot/board/encoder.py:31-54 | the channel of a piece is below 12, its kind's channel modulo 6, and 6 or more exactly for black |
| BoardEncoding.EncodeBoard | selene_chess_bot/board/encoder.py:20-56 | a fresh 8x8x12 array whose every entry is the one-hot channel vector of the square's cell |
| BoardEncoding.VisualCell | selene_chess_bot/board/encoder.py:74-86 | a square is printed as "0" exactly when no channel holds a 1 |
| BoardEncoding.DecodeEncode | selene_chess_bot/board/encoder.py:20-86 | decoding a square the encoder wrote gives back its kind and colour, and nothing for an empty square |
| BoardEncoding.OnesOfCell | selene_chess_bot/board/encoder.py:49-54 | an occupied square has exactly one channel set, an empty one none |
| BoardEncoding.OnesCountPieces | selene_chess_bot/board/encoder.py:41-54 | the encoded board holds as many 1 entries as the board holds pieces |
| CheckDetection.Checks | selene_chess_bot/game/check_detector.py:66-78 | the checks are a subsequence of the legal moves, and a move is among them exactly when it is legal and leaves the other king in check |
| CheckDetection.ChecksAppend | selene_chess_bot/game/check_detector.py:66-78 | one more turn of the loop appends the move exactly when it gives check |
| CheckDetection.CheckDetector.constructor | selene_chess_bot/game/check_detector.py:9-22 | the detector keeps the FEN; with `get_checks_on_position` the checks of the position are computed and cached, otherwise nothing is cached |
| CheckDetection.CheckDetector.ChecksOnPositionInitializer | selene_chess_bot/game/check_detector.py:32-40 | does nothing once initialised or when not asked; otherwise fills the cache (keeping one already there) and marks it initialised |
| CheckDetection.CheckDetector.SetChecksOnPosition | selene_chess_bot/game/check_detector.py:42-81 | returns the cached checks when there are some, otherwise the checks of the starting position, and caches what it returns |
| CheckDetection.CollectChecks | selene_chess_bot/game/check_detector.py:61-80 | the loop collects exactly `Checks` of the legal moves |
| CheckDetection.ChecksAreCached | selene_chess_bot/game/check_detector.py:52-53 | asking twice gives the same list, the checks of the position |
| CheckDetection.ChecksOnDemand | selene_chess_bot/game/check_detector.py:24-40 | a detector made without `get_checks_on_position` has no checks until `set_checks_on_position` computes them |
| MateSearch.OnlyChecksForTheMatingSide | selene_chess_bot/game/checkmate_detector/checkmate_detector.py:364-367 | on the mating side's turn the moves tried are a subsequence of the legal moves, exactly those that give check |
| MateSearch.EveryReplyForTheDefender | selene_chess_bot/game/checkmate_detector/checkmate_detector.py:368-373 | on the defender's turn every legal move is tried |
| MateSearch.Replies | selene_chess_bot/game/checkmate_detector/checkmate_detector.py:299-316 | one verdict per move tried, the verdict of the position that move leads to, one level deeper |
| MateSearch.NothingPastMaximumDepth | selene_chess_bot/game/checkmate_detector/checkmate_detector.py:280-281 | the search never reports a mate beyond the maximum depth |
| MateSearch.WonPositionIsForced | selene_chess_bot/game/checkmate_detector/checkmate_detector.py:284-287 | a position won by the mating side counts as forced within the depth, whatever lies below |
| MateSearch.AllRepliesMustMate | selene_chess_bot/game/checkmate_detector/checkmate_detector.py:319 | after a move of the mating side, the position forces mate exactly when every legal reply of the defender does, vacuously when it has none |
| MateSearch.SomeCheckMustMate | selene_chess_bot/game/checkmate_detector/checkmate_detector.py:292-319 | after a move of the defender, the position forces mate exactly when some check of the mating side does |
| MateSearch.StalemateCountsAsMate | selene_chess_bot/game/checkmate_detector/checkmate_detector.py:292-319 | as written, a defender without a legal reply in a game that is not won counts as mated |
| MateSearch.StalemateIsNoMate | selene_chess_bot/game/checkmate_detector/checkmate_detector.py:292-319 | with the fix, a defender without a legal reply in a game that is not won is not mated |
| MateSearch.FixedMatesAreForced | selene_chess_bot/game/checkmate_detector/checkmate_detector.py:228-319 | every mate the fixed search finds, the search as written finds too |
| MateSearch.CheckmateDetector.constructor | selene_chess_bot/game/checkmate_detector/checkmate_detector.py:11-40 | a detector keeps its FEN, colour, depth and rules, with no roots, no mates and no cached routes |
| MateSearch.CheckmateDetector.IsCheckmate | selene_chess_bot/game/checkmate_detector/checkmate_detector.py:42-46 | true exactly when some mate was found |
| MateSearch.CheckmateDetector.MovesForSimulation | selene_chess_bot/game/checkmate_detector/checkmate_detector.py:321-373 | the moves tried are those of `SimulatedMoves`: checks for the mating side, all legal moves otherwise |
| MateSearch.CheckmateDetector.FindForced | selene_chess_bot/game/checkmate_detector/checkmate_detector.py:228-319 | the verdict is `Forced` of the position, stored on the parent; the nodes built form a tree closed under children, one level per ply and within the depth |
| MateSearch.CheckmateDetector.SearchReplies | selene_chess_bot/game/checkmate_detector/checkmate_detector.py:299-316 | the children added carry the verdicts `Replies` gives, and the parent is not marked |
| MateSearch.CheckmateDetector.FindForceCheckmate | selene_chess_bot/game/checkmate_detector/checkmate_detector.py:159-226 | one new root per check of the position, in order; a root is added to the mates exactly when the search from it forces mate, the mates keep the roots' order, and the result says whether any was added |
| MateSearch.CheckmateDetector.SearchRoot | selene_chess_bot/game/checkmate_detector/checkmate_detector.py:201-224 | a fresh root for the check at depth 0 whose mark is the verdict of the search below it |
| MateSearch.CheckmateDetector.GetRoutesToCheckmates | selene_chess_bot/game/checkmate_detector/checkmate_detector.py:48-88 | the routes are computed once and cached: with a cache it returns the cache, otherwise the routes `Shortest` keeps of one route per mate |
| MateSearch.CheckmateDetector.CollectRoutes | selene_chess_bot/game/checkmate_detector/checkmate_detector.py:90-157 | the loop and the filter give exactly `Shortest` of the routes of the mates, in the mates' order |
| MateSearch.ShortestAreNearest | selene_chess_bot/game/checkmate_detector/checkmate_detector.py:129-155 | with `get_shortest_mate` the routes kept are a subsequence of all routes, exactly those whose depth no other route beats |
| MateSearch.KeepBest | selene_chess_bot/game/checkmate_detector/checkmate_detector.py:146-152 | the last loop keeps exactly the routes of the best depth, in order |
| MateSearch.Keep | selene_chess_bot/game/checkmate_detector/checkmate_detector.py:146-152 | a subsequence of the routes, exactly those of the given depth |
| MateSearch.TrackingStep | selene_chess_bot/game/checkmate_detector/checkmate_detector.py:131-142 | one turn of the first loop keeps the agreement between the routes kept and all routes seen, whether it appends, lowers the best depth or removes the longer route |
| MateSearch.KeepRemove | selene_chess_bot/game/checkmate_detector/checkmate_detector.py:140-142 | removing a route of another depth does not change the routes of a given depth |
| MateSearch.CheckmateDetector.SearchReply | selene_chess_bot/game/checkmate_detector/checkmate_detector.py:300-316 | one reply: a fresh child is appended to the parent, at this depth, and its mark is the verdict of the position the move leads to |
| MateSearch.CheckmateDetector.SearchChecks | selene_chess_bot/game/checkmate_detector/checkmate_detector.py:201-226 | one root per check, in order; the roots kept as mates are a subsequence of them, exactly those whose check forces mate, and the result says whether any was kept |
| MateSearch.CheckmateDetector.RoutesOfFirstStep | selene_chess_bot/game/checkmate_detector/checkmate_detector.py:130-133 | the route of the next mate, at its best depth, extends the routes of the mates before it |
| Checkpoints.Unvisited | selene_chess_bot/alpha_zero/checkpoint.py:46-48 | the children queued are exactly those not yet visited, in the children's order |
| Checkpoints.EnqueueChildren | selene_chess_bot/alpha_zero/checkpoint.py:46-48 | the loop over the children queues exactly `Unvisited` of them |
| Checkpoints.FlattenTree | selene_chess_bot/alpha_zero/checkpoint.py:19-50 | one record per node reachable from the root, the root first and no node twice; every child of a listed node is listed, each later node is a child of an earlier one, and the order of discovery never goes back (breadth first) |
| Checkpoints.FlattenTreeAsWritten | selene_chess_bot/alpha_zero/checkpoint.py:34-36 | as written the record reads `node.move`, which a search node does not have: an AttributeError for every root |
| Checkpoints.VisitStep | selene_chess_bot/alpha_zero/checkpoint.py:28-48 | one turn of the breadth-first loop keeps the queue invariant: visited nodes are listed, queued nodes are children of listed ones in order of discovery |
| Checkpoints.BfsDone | selene_chess_bot/alpha_zero/checkpoint.py:28-50 | with the queue empty the list is closed under children and in breadth-first order |
| Checkpoints.RecordsUpTo | selene_chess_bot/alpha_zero/checkpoint.py:78 | the dictionary of the first n records has exactly their hashes as keys, each mapped to a record with that hash |
| Checkpoints.LastRecordWins | selene_chess_bot/alpha_zero/checkpoint.py:78 | for a hash written twice, the dictionary keeps the last record with that hash |
| Checkpoints.LinkParents | selene_chess_bot/alpha_zero/checkpoint.py:82 | the parents are exactly the nodes of the listed hashes, each once |
| Checkpoints.LinkChildren | selene_chess_bot/alpha_zero/checkpoint.py:83 | the children dictionary maps exactly the listed hashes to their nodes |
| Checkpoints.BuildNodeMap | selene_chess_bot/alpha_zero/checkpoint.py:78 | one fresh, unlinked node per distinct hash, built from the last record with that hash, no node shared by two hashes |
| Checkpoints.Relink | selene_chess_bot/alpha_zero/checkpoint.py:80-83 | succeeds exactly when every parent and child hash names a record; then every node has the parents and children its last record lists |
| Checkpoints.RelinkRecords | selene_chess_bot/alpha_zero/checkpoint.py:80-83 | the relinking loop succeeds exactly when every record's links resolve, and then every record seen is linked |
| Checkpoints.Checkpoint.constructor | selene_chess_bot/alpha_zero/checkpoint.py:12-17 | no root, not initialised, file name "checkpoint.pkl" |
| Checkpoints.Checkpoint.LoadCheckpoint | selene_chess_bot/alpha_zero/checkpoint.py:68-88 | once initialised it returns the same root; otherwise a KeyError for a hash that names no record and an IndexError for an empty list, each leaving it uninitialised; otherwise the root is the node of the first record's hash, every node is linked as its last record says, and the checkpoint is initialised |
| Checkpoints.Checkpoint.LoadCheckpointAsWritten | selene_chess_bot/alpha_zero/checkpoint.py:68-88 | as written, once initialised it returns the root; an empty list is an IndexError and any other list a TypeError, since the node constructor takes none of the record's keys |
| Checkpoints.BfsStep | selene_chess_bot/alpha_zero/checkpoint.py:28-48 | one turn of the breadth-first loop: the records stay those of the nodes listed, in order, and the queue invariant of `flatten_tree` is kept |
| Checkpoints.LastIndexKept | selene_chess_bot/alpha_zero/checkpoint.py:78 | the record a hash keeps in the dictionary is the last one with that hash; no later record carries it |
| Checkpoints.RelinkNext | selene_chess_bot/alpha_zero/checkpoint.py:80-83 | relinking the next record gives its node the parents and children that record names, and the links of the records before it stay |
| Checkpoints.SetLinks | selene_chess_bot/alpha_zero/checkpoint.py:81-83 | writing one node's parents and children changes that node's links only |
| Checkpoints.RelinkDone | selene_chess_bot/alpha_zero/checkpoint.py:80-83 | once the loop has read every record, each node has the links of the last record with its hash |
| Checkpoints.LoadNodes | selene_chess_bot/alpha_zero/checkpoint.py:78-85 | a hash that names no record is a KeyError and an empty list an IndexError; otherwise the root is the node of the first record and every node is linked as its last record says |
| Fen.CreateFenRow | selene_chess_bot/game/enconder.py:33-45 | the row loop writes exactly `EncodeRow` of the row: each run of "." becomes its length |
| Fen.CreateFen | selene_chess_bot/game/enconder.py:12-52 | the record is `FenOf` of the fields: the encoded rows joined by "/", the colour letter, the castling field, the en-passant square or "-", and the two counters, space separated; `Game.create_fen` (selene_chess_bot/game/game.py:232-304) is the same writer |
| Fen.ParseRow | selene_chess_bot/game/enconder.py:67-76 | a digit becomes that many ".", any other character itself |
| Fen.ParsePlacement | selene_chess_bot/game/enconder.py:65-76 | one board row per "/"-separated field, each expanded by `ParseRow` |
| Fen.ParseFen | selene_chess_bot/game/enconder.py:54-110 | the reader computes `ParseFenSpec`: an IndexError for fewer than six fields or a ValueError for a counter that is no integer, in the order Python evaluates them, otherwise the six fields read back |
| Fen.EncodeRowShape | selene_chess_bot/game/enconder.py:33-45 | the encoded row of a well-formed row is non-empty, holds no space or "/", and expands back to the row |
| Fen.ExpandEncodeFrom | selene_chess_bot/game/enconder.py:33-76 | expanding what the row loop writes after k pending empty squares gives k dots and then the cells |
| Fen.FenRoundTrip | selene_chess_bot/game/enconder.py:12-110 | reading a record the writer produced (without reversing) gives back the board, the colour, the castling flags of its letters, the en-passant square and both counters |
| Fen.CastlingFlags | selene_chess_bot/game/enconder.py:91-101 | each castling flag is set exactly when its letter is in the castling field; white moves exactly for "w"; no en-passant square exactly for "-" |
| Fen.ParseReversed | selene_chess_bot/game/enconder.py:78-79 | reading with `reverse_piece_placement` gives the rows in reverse order and every other field unchanged |
| Fen.FieldsRoundTrip | selene_chess_bot/game/enconder.py:51-56 | splitting the stripped, space-joined fields gives the fields back |
| Fen.PlacementRoundTrip | selene_chess_bot/game/enconder.py:48-76 | the placement field of a well-formed board is one token that reads back as the board |
| GameState.WithDraw | selene_chess_bot/game/game.py:1433-1439 | a draw terminates the game, marks it drawn with the given reason, and leaves the move log, turn, repetition table, counter and material flags alone |
| GameState.FiftyMoveRule | selene_chess_bot/game/game.py:1225-1247 | the half-move counter restarts on a pawn move or a capture and otherwise grows by one; the result is true exactly when the new counter is at least 100 |
| GameState.MaterialCheck | selene_chess_bot/game/game.py:1332-1390 | a colour keeps sufficient material only if it had it and now has more than a lone king, or a king and one knight or one bishop; only that colour's flag can change |
| GameState.StalemateCheck | selene_chess_bot/game/game.py:1315-1330 | a stalemate draw happens exactly when the king is not in check, its side has at most 8 pieces and no piece can move; otherwise nothing changes |
| GameState.DrawCheck | selene_chess_bot/game/game.py:1278-1313 | 100 half-moves force the fifty-move draw; otherwise a colour lacking material loses its flag; an insufficient-material draw leaves both flags false; a lost flag never comes back; values change only with a draw |
| GameState.Checkmated | selene_chess_bot/game/game.py:1140-1158 | the winner's value is `inf`, the loser's `-inf`, the game is terminated, and nothing else changes |
| GameState.Terminate | selene_chess_bot/game/game.py:1109-1158 | the draw checks run first; the game ends when they draw it or when the side to move is in check with no legal move |
| GameState.RecordPosition | selene_chess_bot/game/game.py:1392-1431 | the count of the new hash goes up by one (from 0 when absent); reaching 3 draws the game for threefold repetition; the log, turn, counter and flags are untouched |
| GameState.Logged | selene_chess_bot/game/game.py:1265-1269 | the turn passes to the other colour, and the move is appended to the current turn's list, which is created when missing |
| GameState.NextTurn | selene_chess_bot/game/game.py:1273-1274 | the move number grows exactly when white is to move again |
| GameState.AfterMove | selene_chess_bot/game/game.py:1249-1276 | after a move the turn has passed, the move is logged, the move number grows after black's move, and the new position is counted (a third occurrence draws) |
| GameState.Outcome | selene_chess_bot/game/game.py:1249-1276 | the counter, the material flags and the draw reason after a move are those of the termination checks, except that a third repetition overrides the reason |
| GameState.FullMove | selene_chess_bot/game/game.py:1249-1276 | a white move and a black reply return the turn to white, raise the move number by one and log both moves, in order, under the old number |
| GameState.FiftyMoveCounter | selene_chess_bot/game/game.py:1225-1247 | after any move the counter is the rule's half-move count; at 100 or more the game is drawn and terminated, with the fifty-move reason unless a repetition draws it too |
| GameState.MaterialNeverReturns | selene_chess_bot/game/game.py:1345-1347 | once a colour is marked as lacking material it stays so through any sequence of moves |
| GameState.InsufficientMaterial | selene_chess_bot/game/game.py:1301-1311 | a new insufficient-material draw means neither side has material; below 100 half-moves a colour lacking material loses its flag |
| GameState.FinishedGameRefuses | selene_chess_bot/game/game.py:616-617 | a finished game refuses every move and stays as it was; a move the board rejects leaves the game unchanged and reports the error; an accepted move reports true |
| GameState.DrawScoresZero | selene_chess_bot/game/game.py:152-165 | a drawn game scores 0 and both game values are 0 |
| GameState.CheckmateWins | selene_chess_bot/game/game.py:1145-1158 | a checkmate that no draw rule catches terminates the game and scores it for the side that moved |
| GameState.PlayCounts | selene_chess_bot/game/game.py:1423-1431 | over any run of moves, each position's count grows by exactly the number of moves that led to it |
| GameState.PlayAppend | selene_chess_bot/game/game.py:1249-1276 | playing two runs of moves one after the other is playing their concatenation |
| GameState.MateOnHundredthHalfMove | selene_chess_bot/game/game.py:1135-1158 | as written, a quiet mate on the hundredth half-move is scored as a fifty-move draw |
| GameState.TerminateFixed | selene_chess_bot/game/game.py:1109-1158 | the corrected order: a checkmate terminates the game without a draw verdict; any other move is handled as before |
| GameState.MateStands | selene_chess_bot/game/game.py:1109-1158 | with the corrected order a checkmate always terminates the game, undrawn, scored for the side that moved |
| GameState.QuietStep | selene_chess_bot/game/game.py:1249-1276 | a quiet move below the fifty-move limit that reaches no position a third time keeps the game in play and raises the counter by one |
| GameState.QuietPlay | selene_chess_bot/game/game.py:1249-1276 | a run of quiet moves that stays below 100 half-moves and reaches no position three times keeps the game in play |
| GameState.KnightShuffleMissed | selene_chess_bot/game/game.py:105 | as written, the initial position is never counted: two knight round trips bring it back for the third time, yet its count is only 2 and the game is not drawn |
| GameState.NewBookFixed | selene_chess_bot/game/game.py:105 | the corrected start records the initial position once |
| GameState.RepetitionsStayDrawn | selene_chess_bot/game/game.py:1423-1429 | if every position counted three times has drawn the game, that stays so after any move |
| GameState.RepetitionDraws | selene_chess_bot/game/game.py:1423-1429 | a run of moves that brings some position's count to 3 ends with the game drawn |
| GameState.ThreefoldDraws | selene_chess_bot/game/game.py:1392-1431 | from the corrected start, any position occurring three times, the initial one included, draws the game |
| GameState.KnightShuffleDrawn | selene_chess_bot/game/game.py:1392-1431 | from the corrected start, two knight round trips draw the game |
| GameState.Game.constructor | selene_chess_bot/game/game.py:87-149 | a new game has an empty log, counter 0, both values 0, both material flags true and no recorded position |
| GameState.Game.SetDraw | selene_chess_bot/game/game.py:1433-1439 | the fields become those of `WithDraw` |
| GameState.Game.ManageFiftyMovesRule | selene_chess_bot/game/game.py:1225-1247 | the fields and the answer are those of `FiftyMoveRule` |
| GameState.Game.ManageSufficientMaterial | selene_chess_bot/game/game.py:1332-1390 | the fields and the answer are those of `MaterialCheck` |
| GameState.Game.ManageStalemate | selene_chess_bot/game/game.py:1315-1330 | the fields and the answer are those of `StalemateCheck` |
| GameState.Game.ManageDraw | selene_chess_bot/game/game.py:1278-1313 | the fields and the answer are those of `DrawCheck` |
| GameState.Game.ManageGameTermination | selene_chess_bot/game/game.py:1109-1158 | the fields become those of `Terminate` |
| GameState.Game.SetCurrentGameStateHash | selene_chess_bot/game/game.py:1392-1431 | the fields become those of `RecordPosition` |
| GameState.Game.LogMove | selene_chess_bot/game/game.py:1265-1269 | the fields become those of `Logged` |
| GameState.Game.ManageGameState | selene_chess_bot/game/game.py:1249-1276 | the fields become those of `AfterMove` |
| GameState.Game.MovePiece | selene_chess_bot/game/game.py:595-649 | the fields and the answer are those of `PlayMove`: false on a finished game, the board's error when it rejects the move, true otherwise |
| GameState.CastlingFen | selene_chess_bot/game/game.py:201-222 | the field is "-" exactly when no right is held, and is 1 to 4 characters long |
| GameState.CastlingFenRoundTrip | selene_chess_bot/game/game.py:201-222 | reading the field back gives the same four rights |
| GameState.CastlingFenOrdered | selene_chess_bot/game/game.py:201-222 | the letters appear in the order K, Q, k, q |
| FenGame.RowErrorFrom | selene_chess_bot/board/board.py:892-904 | no error exactly when every non-empty cell of the row from that column on is a known piece letter on the board; an error is a ValueError or an IndexError |
| FenGame.SetupErrorFrom | selene_chess_bot/board/board.py:864-906 | no error exactly when every row from that index on is accepted by the board set-up |
| FenGame.SetupErrorExact | selene_chess_bot/board/board.py:864-906 | the first refused cell is found exactly when the set-up as a whole is refused |
| FenGame.GameFromFen | selene_chess_bot/game/game.py:307-415 | a malformed record keeps its parse error; the game is built exactly when the record parses, the board accepts the rows, `_set_en_passant_pawn` accepts the en-passant target (otherwise its IndexError, ValueError or AttributeError), the start hash can read that target's en-passant key (otherwise its error, a KeyError for a rank-8 square) and every corner with a castling flag holds a piece (otherwise AttributeError); the game starts with the record's move number, half-move clock, side to move, rows, castling flags and en-passant square, an empty log and no recorded position |
| FenGame.StartHashError | selene_chess_bot/game/game.py:481-484 | no target reads no key; a target fails exactly when `int(en_passant_pos[1])` is no key of the 0..7 table; a square name fails exactly on rank 8, with a KeyError |
| FenGame.EnPassantError | selene_chess_bot/game/game.py:783-785 | no target and the empty target are accepted without a look-up; any other target is refused exactly when `_set_en_passant_pawn` refuses it |
| FenGame.SetEnPassantPawn | selene_chess_bot/game/game.py:1441-1454 | a target shorter than two characters is an IndexError, one whose second character is not a digit a ValueError; a square name is accepted exactly when its square holds a piece, and refused with AttributeError otherwise |
| FenGame.OccupiedTargetAccepted | selene_chess_bot/game/game.py:1441-1454 | a square name whose square holds a piece passes both `_initialize_en_passant_pawns` and `_set_en_passant_pawn` |
| FenGame.GameFromFenAsWritten | selene_chess_bot/game/game.py:384-390 | as written, every record that parses is refused with a TypeError, because the `Game` constructor passes a `castling_rights` keyword that `Board.__init__` does not take |
| FenGame.FenStartRoundTrip | selene_chess_bot/game/game.py:307-415 | a record written from a valid set-up, whose en-passant target names an occupied square off rank 8, sets up the same move number, half-move clock, side to move, rows, castling flags and en-passant square, while the method as written refuses it |
| KingRules.LineAttacker | selene_chess_bot/pieces/piece.py:356-361 | an attacker is found only at the end of the scan, and only an enemy piece of a kind that attacks along that line |
| KingRules.PawnAt | selene_chess_bot/pieces/piece.py:432-451 | a pawn is reported only when it is an enemy pawn whose attacked squares hold the square asked about |
| KingRules.AttackersAreEnemies | selene_chess_bot/pieces/piece.py:309-338 | every attacker reported is an enemy piece, and never a king |
| KingRules.SliderAtEndChecks | selene_chess_bot/pieces/piece.py:340-393 | an enemy queen, rook or bishop at the end of a scan of its kind is always among the attackers |
| KingRules.SlidersAttack | selene_chess_bot/pieces/piece.py:309-338 | the row, column and diagonal attackers are all among the attackers |
| KingRules.KnightChecks | selene_chess_bot/pieces/piece.py:395-419 | an enemy knight a knight's move away is always among the attackers |
| KingRules.LineAttackersLoop | selene_chess_bot/pieces/piece.py:340-370 | the loop finds, for each of the two directions, the column scan's attacker then the row scan's |
| KingRules.DiagonalAttackersLoop | selene_chess_bot/pieces/piece.py:372-393 | the loop finds the attacker at the end of each of the four diagonal scans, in order |
| KingRules.PawnProbe | selene_chess_bot/pieces/piece.py:432-451 | one turn of the loop reports the enemy pawn at that offset that attacks the square, if any |
| KingRules.GetPawnsAttackingMe | selene_chess_bot/pieces/piece.py:421-453 | the loop finds the enemy pawns at the four diagonal offsets that attack the square, in order |
| KingRules.CollectAttackers | selene_chess_bot/pieces/piece.py:324-329 | the attackers are the line, diagonal, knight and pawn attackers, in that order |
| KingRules.GetPiecesAttackingMe | selene_chess_bot/pieces/piece.py:309-338 | the method returns the attackers of the piece's square and records them on the piece |
| KingRules.CheckIfInCheck | selene_chess_bot/pieces/king.py:48-54 | the king is in check exactly when something attacks it, and both the flag and the attackers are recorded on it |
| KingRules.CastlingSquares | selene_chess_bot/pieces/king.py:185-208 | two squares towards the king's rook, three towards the queen's, nearest first |
| KingRules.SquaresEmpty | selene_chess_bot/pieces/king.py:222-227 | true exactly when every listed square is empty; an index off the board is an IndexError |
| KingRules.NoneAttacked | selene_chess_bot/pieces/king.py:235-240 | true exactly when none of the first `i` squares towards the rook is attacked |
| KingRules.CastlingPossibleMeans | selene_chess_bot/pieces/king.py:176-240 | castling is allowed exactly when the right is held and every square up to the rook is empty and unattacked |
| KingRules.CastlingIgnoresCheck | selene_chess_bot/pieces/king.py:216-240 | as written, an attack on the king's own square never stops castling |
| KingRules.QueensideNeedsRookNeighbourSafe | selene_chess_bot/pieces/king.py:185-193 | as written, an attack on the square next to the queen's rook stops queen's side castling |
| KingRules.FideCastlingSafe | selene_chess_bot/pieces/king.py:216-240 | the corrected rule never lets a king in check castle, needs the two squares the king crosses to be safe, and ignores attacks on the square next to the queen's rook |
| KingRules.CastlingHelper | selene_chess_bot/pieces/king.py:216-240 | the method's answer is the path test: all squares empty, then none attacked |
| KingRules.CheckCastling | selene_chess_bot/pieces/king.py:176-213 | the method's answer is the castling test for that side: the right, then the path |
| KingRules.KingMovesShape | selene_chess_bot/pieces/king.py:110-174 | every move is a neighbouring square on the board that passes the attack and own-piece tests asked for, or a castling square two files away whose conditions hold |
| KingRules.FreeNeighbourIsMove | selene_chess_bot/pieces/king.py:140-155 | every neighbouring square on the board that passes the attack and own-piece tests asked for is a move |
| KingRules.NeighboursAreMoves | selene_chess_bot/pieces/king.py:140-155 | every square the neighbour loop keeps is among the moves |
| KingRules.KingMovesFixed | selene_chess_bot/pieces/king.py:166-172 | the corrected naming: the same moves, unchanged when names are not asked for, otherwise one name per move |
| KingRules.KingMovesNamed | selene_chess_bot/pieces/king.py:166-172 | with the correction, a king between the c- and f-files gets one name per move, each reading back as that move's square |
| KingRules.SweepSingle | selene_chess_bot/pieces/king.py:146-153 | sweeping a one-square list keeps an empty square or an enemy piece's position and drops an own piece |
| KingRules.KingNeighbour | selene_chess_bot/pieces/king.py:141-155 | one turn of the neighbour loop gives that neighbour when it passes the tests asked for, and nothing otherwise |
| KingRules.CalculateKingMoves | selene_chess_bot/pieces/king.py:110-174 | the method gives the neighbours, then the king's side castling square, then the queen's side one; as written, asking for names raises a TypeError as soon as there is a move |
| KingRules.GetKingAttackedSquares | selene_chess_bot/pieces/king.py:56-64 | the attacked squares are the moves with neither attacks nor captures checked: every neighbouring square on the board and the castling squares whose conditions hold |
| LegalMoves.DefaultScans | selene_chess_bot/pieces/piece.py:457-586 | the column, row and diagonal scans from a square give exactly eight lists |
| LegalMoves.ScanAll | selene_chess_bot/pieces/piece.py:457-586 | calling `scan_column`, `scan_row` and `scan_diagonals` with their defaults gives the eight default scans |
| LegalMoves.FriendlyKingLine | selene_chess_bot/pieces/piece.py:780-858 | no line is found exactly when no scan ends at the piece's own king; otherwise the first such line, column before row before diagonal, with a diagonal paired with its opposite |
| LegalMoves.CheckIfFriendlyKingIsNextToPiece | selene_chess_bot/pieces/piece.py:780-858 | the method's answer is the first line that ends at the piece's own king, or none |
| LegalMoves.AlgebraicItem | selene_chess_bot/pieces/piece.py:621-630 | a piece stays as it is; a square on the board becomes its name, one off the board an error; a name cannot be converted again |
| LegalMoves.AlgebraicItemsPointwise | selene_chess_bot/pieces/piece.py:621-630 | the list converts exactly when each entry does, entry by entry and in order |
| LegalMoves.AlgebraicKeepsPieces | selene_chess_bot/pieces/piece.py:621-630 | a converted list holds no coordinates and no piece that was not in the original |
| LegalMoves.ConvertToAlgebraic | selene_chess_bot/pieces/piece.py:622-630 | the `alg_list` loop gives the entry-by-entry conversion |
| LegalMoves.FirstEndingAt | selene_chess_bot/pieces/piece.py:614-619 | none exactly when no scan ends at the piece; otherwise the first scan that does |
| LegalMoves.ScanDirectionForPieceAtEnd | selene_chess_bot/pieces/piece.py:588-632 | the method returns the first scan ending at the piece, converted to names when asked, or false when none does |
| LegalMoves.AttackLines | selene_chess_bot/pieces/piece.py:690-707 | only a bishop, rook or queen has lines along which its check can be blocked |
| LegalMoves.KeepInCheckAnswers | selene_chess_bot/pieces/piece.py:709-719 | a move is kept exactly when it captures the checker, lands on its line or lands on its square |
| LegalMoves.BlockingKeepsAnswers | selene_chess_bot/pieces/piece.py:709-721 | with a single checker the moves kept are exactly the generated moves that answer the check |
| LegalMoves.BlockingMoves | selene_chess_bot/pieces/piece.py:709-721 | the loop keeps the moves that answer the check, in order |
| LegalMoves.CanAttackFriendlyKing | selene_chess_bot/pieces/piece.py:1003-1016 | true exactly when some move is an enemy piece of one of the given kinds |
| LegalMoves.PositionOf | selene_chess_bot/pieces/piece.py:768-773 | a piece becomes its position or square name, so the result is never a piece |
| LegalMoves.PositionsLeaveNoPiece | selene_chess_bot/pieces/piece.py:768-773 | the rewrite keeps the length, leaves no piece and keeps every other entry as it was |
| LegalMoves.ConvertPiecesToPositions | selene_chess_bot/pieces/piece.py:768-773 | the loop gives the entry-by-entry rewrite |
| LegalMoves.CommonIsIntersection | selene_chess_bot/pieces/piece.py:774 | the set intersection holds exactly the moves in both lists, each once |
| LegalMoves.CommonWithin | selene_chess_bot/pieces/piece.py:774 | a move is in the intersection exactly when it is in both lists |
| LegalMoves.LineMoves | selene_chess_bot/pieces/piece.py:749-758 | the two halves of the king's line, converted when asked, hold no piece that was not on the line |
| LegalMoves.LegalSpec | selene_chess_bot/pieces/piece.py:634-778 | a king's moves are returned as generated; without a king of its colour nothing is filtered; in double check nothing is legal |
| LegalMoves.LegalWithinGenerated | selene_chess_bot/pieces/piece.py:634-778 | the filters never invent a move: every legal move was generated by the piece |
| LegalMoves.InCheckAnswersTheCheck | selene_chess_bot/pieces/piece.py:678-721 | in single check every move left was generated and captures the checker if it captures at all; a knight's or pawn's check can only be answered by taking the checker |
| LegalMoves.PinnedStaysOnLine | selene_chess_bot/pieces/piece.py:723-776 | a piece with no enemy slider behind it on its king's line keeps all its moves; a pinned piece keeps exactly the moves that stay on that line, as positions |
| MateTree.Min | selene_chess_bot/alpha_zero/checkmate_detector/node.py:185-186 | the update keeps the smaller of the running best and the child's distance, never more than either, ties going to the child |
| MateTree.MoveNode.constructor | selene_chess_bot/alpha_zero/checkmate_detector/node.py:8-26 | a new node holds its move, parent, side to move, mating side, depth and mate flag, and no children |
| MateTree.MoveNode.AddChild | selene_chess_bot/alpha_zero/checkmate_detector/node.py:28-29 | the child is appended at the end of the children and nothing else changes |
| MateTree.MoveNode.ChildrenForcedCheckmate | selene_chess_bot/alpha_zero/checkmate_detector/node.py:64-82 | the stored and returned flag is "every child mates" on the mating side's move and "some child mates" on the defender's move; the children and the parent stay |
| MateTree.Verdict | selene_chess_bot/alpha_zero/checkmate_detector/node.py:69-81 | `all` holds exactly when every flag is set, `any` exactly when some flag is set |
| MateTree.AllAppend | selene_chess_bot/alpha_zero/checkmate_detector/node.py:69-71 | `all` of a list with one more flag is the old answer and the new flag |
| MateTree.AnyAppend | selene_chess_bot/alpha_zero/checkmate_detector/node.py:79-81 | `any` of a list with one more flag is the old answer or the new flag |
| MateTree.CollectVerdict | selene_chess_bot/alpha_zero/checkmate_detector/node.py:64-82 | the loop over the children's flags computes `all` or `any` of them |
| MateTree.Flags | selene_chess_bot/alpha_zero/checkmate_detector/node.py:70 | one flag per child, in order, each the child's mate flag |
| MateTree.MateChildren | selene_chess_bot/alpha_zero/checkmate_detector/node.py:84-88 | the generator yields only mating children, each a child of the node, and every mating child |
| MateTree.Moves | selene_chess_bot/alpha_zero/checkmate_detector/node.py:174 | one move per child, in order |
| MateTree.MoveNode.GetRouteToCheckmate | selene_chess_bot/alpha_zero/checkmate_detector/node.py:90-104 | a node that is not a mate raises; otherwise the answer is keyed by the node's move, holds the pruned route from depth 1 with its levels, and `best_depth` is the node's distance to mate |
| MateTree.MoveNode.RouteToCheckmate | selene_chess_bot/alpha_zero/checkmate_detector/node.py:106-206 | the returned distance is the node's own depth for a childless mate and the least distance among its mating children otherwise; the route is a mate leaf exactly for a childless mate; its entries are well shaped, and when pruning every nearest child's line is kept |
| MateTree.MoveNode.LinesBelow | selene_chess_bot/alpha_zero/checkmate_detector/node.py:170-206 | the two loops give the running minimum over the mating children, a well-shaped route, and every nearest line when pruning |
| MateTree.MoveNode.CollectLines | selene_chess_bot/alpha_zero/checkmate_detector/node.py:170-194 | after the first loop the running best is the minimum of the children's distances, no child is nearer, and each entered line is its child's route |
| MateTree.MoveNode.EnterChild | selene_chess_bot/alpha_zero/checkmate_detector/node.py:174-191 | one turn of the first loop extends the running minimum, the entries and the completeness of the nearest lines by one child |
| MateTree.PruneLines | selene_chess_bot/alpha_zero/checkmate_detector/node.py:197-204 | the second loop keeps only lines whose distance equals the best, and keeps every such line |
| MateTree.Dists | selene_chess_bot/alpha_zero/checkmate_detector/node.py:177-180 | one distance per child, each the child's distance to mate one level down |
| MateTree.MateChildrenRanked | selene_chess_bot/alpha_zero/checkmate_detector/node.py:171-180 | the mating children of a node of the tree are in the tree, one rank lower, so the recursion ends |
| MateTree.RouteShape | selene_chess_bot/alpha_zero/checkmate_detector/node.py:158-206 | what the two loops leave is a well-shaped route |
| MateTree.BestOfMateChildren | selene_chess_bot/alpha_zero/checkmate_detector/node.py:170-194 | a node that is not a childless mate is as far as the minimum over its mating children's distances |
| MateTree.MinFoldIsLeast | selene_chess_bot/alpha_zero/checkmate_detector/node.py:170-186 | the running minimum is at most every distance and is one of them unless there were none |
| MateTree.BestIsFold | selene_chess_bot/alpha_zero/checkmate_detector/node.py:170-186 | the distance over the first i mating children is the running minimum of their distances |
| MateTree.CollectStep | selene_chess_bot/alpha_zero/checkmate_detector/node.py:174-191 | one turn of the first loop, kept or popped, preserves the entries, the bound and the completeness of the nearest lines |
| MateTree.BelowStep | selene_chess_bot/alpha_zero/checkmate_detector/node.py:185-186 | after the update every earlier distance is at or beyond the new best |
| Moving.PositionTo | selene_chess_bot/pieces/piece.py:1018-1044 | coordinates go where they say and are compared as a square; a written square without a `PieceMove` is an AttributeError; otherwise the name converts or its conversion error is raised, and a promotion compares the `PieceMove`'s own move |
| Moving.NamedSquareIsCoordinates | selene_chess_bot/pieces/piece.py:1018-1044 | a square given by its name goes, and is compared, exactly as the same square given by coordinates |
| Moving.NamedDestinationConverts | selene_chess_bot/pieces/piece.py:1018-1044 | a square name always converts, to a square on the board whose name it is |
| Moving.AfterHook | selene_chess_bot/pieces/piece.py:1046-1056 | a king's first move clears both castling rights of its colour, a rook's first move the right of its side; any other move leaves the rights alone |
| Moving.HookOnlyClearsOwnRights | selene_chess_bot/pieces/rook.py:113-121 | the hook only takes rights away, never touches the other colour, and a rook's hook leaves the other side of its colour alone |
| Moving.HookIdempotent | selene_chess_bot/pieces/king.py:244-252 | running the hook a second time changes nothing |
| Moving.ValidateBeforeMoving | selene_chess_bot/pieces/piece.py:1046-1056 | the board's rights become the hook's result and nothing else on the board changes |
| Moving.Decision | selene_chess_bot/pieces/piece.py:271-288 | the move goes ahead exactly when castling or when the compared value is among the legal moves; an error computing them is raised unless castling |
| Moving.MoveTo | selene_chess_bot/pieces/piece.py:223-288 | the hook runs first; a bad destination or a refused move leaves the board and every piece as they were (bar the rights); an accepted move puts the piece on its new square, empties the old one and clears its first move, and no other piece moves |
| Moving.Advance | selene_chess_bot/pieces/piece.py:276-287 | the accepted move: the piece is on the new square, has lost its first move, its old square is empty, and the other pieces stay |
| Moving.CalculateLegalMoves | selene_chess_bot/pieces/piece.py:634-778 | a king's list is its own; another piece raises a KeyError without a king of its colour, keeps its list when the list of kings is empty, and otherwise the king is asked about check and the list is filtered as the specification function says |
| Moving.FilterForKing | selene_chess_bot/pieces/king.py:48-54 | the king's check flag is set exactly when pieces attack it, and the list is filtered as the specification function says |
| Moving.FirstOnSide | selene_chess_bot/pieces/king.py:81 | none exactly when no rook has that side; otherwise the first rook of that side in the list |
| Moving.CastlingRook | selene_chess_bot/pieces/king.py:77-81 | a KeyError when the colour never had rooks, an IndexError when none is of that side, otherwise a rook of the colour's list on that side |
| Moving.Direction | selene_chess_bot/pieces/king.py:84-85 | plus one towards the king side, minus one towards the queen side |
| Moving.Castle | selene_chess_bot/pieces/king.py:66-108 | never returns True: a castling that is not possible returns the check's answer with nothing changed; a missing rook raises its lookup error; otherwise the rook's hook runs and its `move_to` raises a TypeError, leaving the grid and the king as they were |
| Moving.CastlingRookMove | selene_chess_bot/pieces/king.py:88-93 | an accepted rook move puts the rook next to the king's square towards its side; a refused one leaves it where it was; the king does not move |
| Moving.RookCastlingLegalMoves | selene_chess_bot/pieces/piece.py:634-778 | a rook without a king of its colour gets a KeyError |
| Moving.CastlingMoves | selene_chess_bot/pieces/king.py:88-106 | after the rook's move, the king moves two files towards the rook without a legality test and loses its first move and its castling rights |
| Moving.CastleFixed | selene_chess_bot/pieces/king.py:66-108 | a castling that is not possible changes nothing; a successful one needs the rook, moves the king two files and the rook next to it (or leaves it), and clears both rights of the colour on the king's first move |
| Notation.Color.Opposite | selene_chess_bot/pieces/utilites.py:8-12 | the opposite colour is never the colour itself |
| Notation.GetOpposite | selene_chess_bot/pieces/utilites.py:14-19 | the static helper answers exactly as `opposite` |
| Notation.OppositeInvolution | selene_chess_bot/pieces/utilites.py:8-12 | the opposite of the opposite is the colour itself, and no colour is its own opposite |
| Notation.Choices | selene_chess_bot/pieces/utilites.py:21-23 | two pairs, each colour's value paired with its name at the place of its value |
| Notation.PlayerValue | selene_chess_bot/pieces/utilites.py:82-85 | white counts +1 and black -1 |
| Notation.PlayerValueOpposite | selene_chess_bot/pieces/utilites.py:82-85 | the two colours count with opposite signs |
| Notation.AllKindsComplete | selene_chess_bot/pieces/utilites.py:35-41 | the enumeration order lists every kind of piece |
| Notation.FindKindFrom | selene_chess_bot/pieces/utilites.py:45-48 | the loop from position i: a ValueError exactly when no later member names the string, otherwise the first member that does |
| Notation.GetPieceFromString | selene_chess_bot/pieces/utilites.py:43-48 | a ValueError exactly when no kind is named by the string (its name or its letter); otherwise a kind the string names |
| Notation.LetterSelectsKind | selene_chess_bot/pieces/utilites.py:35-48 | each kind's letter selects that kind |
| Notation.NameSelectsKind | selene_chess_bot/pieces/utilites.py:35-48 | each kind's name selects that kind |
| Notation.LettersDistinct | selene_chess_bot/pieces/utilites.py:35-41 | two kinds share a letter only when they are the same kind |
| Notation.KindOfLetter | selene_chess_bot/game/piece_move.py:190-193 | the kind whose letter it is, or none when no kind has that letter |
| Notation.CastlingRights.Set | selene_chess_bot/board/board.py:674-675 | writing one flag of the dictionary sets that flag and leaves the other three |
| Notation.ToAlgebraic | selene_chess_bot/core/utils.py:28-37 | a name exactly for a square on the board (a KeyError otherwise), the file letter followed by the rank digit |
| Notation.SquareName | selene_chess_bot/core/utils.py:28-37 | the name of a square on the board is the one the conversion gives |
| Notation.FromAlgebraic | selene_chess_bot/core/utils.py:40-50 | an IndexError for fewer than two characters, a ValueError when the second is no digit, otherwise the file and rank offsets from 'a' and '1', unchecked against the board |
| Notation.FromToAlgebraic | selene_chess_bot/core/utils.py:28-50 | reading a square's name gives the square back |
| Notation.ToFromAlgebraic | selene_chess_bot/core/utils.py:28-50 | a square name reads as a square whose name it is |
| Notation.ToAlgebraicShape | selene_chess_bot/core/utils.py:28-37 | a square's name is two characters, a file letter and a rank digit |
| Notation.ToAlgebraicInjective | selene_chess_bot/core/utils.py:28-37 | two squares with the same name are the same square |
| PawnRules.Direction | selene_chess_bot/pieces/pawn.py:80 | a white pawn moves up the rows (+1) and a black one down (-1) |
| PawnRules.AttackedSquares | selene_chess_bot/pieces/pawn.py:45-71 | exactly the one or two squares diagonally ahead that lie on a file of the board, left before right |
| PawnRules.AttackedSquaresOnBoard | selene_chess_bot/pieces/pawn.py:54-63 | from a square with a row ahead, the attacked squares are on the board: one on an edge file, two elsewhere |
| PawnRules.SquareItems | selene_chess_bot/pieces/pawn.py:71 | the squares as coordinate entries, one per square, in order |
| PawnRules.SquareNames | selene_chess_bot/pieces/pawn.py:65-69 | the names of the squares, one per square in order, or a KeyError when one is off the board |
| PawnRules.GetAttackedSquares | selene_chess_bot/pieces/pawn.py:45-71 | without names, the pawn's squares diagonally ahead as coordinates |
| PawnRules.Target | selene_chess_bot/pieces/pawn.py:183-186 | coordinates as they are, or the square's name, which is a KeyError off the board |
| PawnRules.Promotions | selene_chess_bot/pieces/pawn.py:175-181 | the four promotions, queen, rook, knight, bishop, in that order |
| PawnRules.ForwardMoves | selene_chess_bot/pieces/pawn.py:156-199 | the pawn moves forward only into an empty square, and always can then; on the last rank the four promotions; otherwise one step and, on a first move into an empty square two ahead, a second step, in that order |
| PawnRules.CaptureOn | selene_chess_bot/pieces/pawn.py:209-227 | a capture is offered only onto an enemy piece diagonally ahead, and the promotion flag is set exactly for a capture onto the last rank |
| PawnRules.CapturesAreAttacks | selene_chess_bot/pieces/pawn.py:201-247 | every capture square is a square the pawn attacks, holding an enemy piece |
| PawnRules.CapturesComplete | selene_chess_bot/pieces/pawn.py:201-247 | off the last rank, every enemy piece diagonally ahead can be captured |
| PawnRules.PromotionCaptureHidesRight | selene_chess_bot/pieces/pawn.py:221-222 | with enemies on both sides of the promotion rank, only the left capture's promotions are listed: the early return skips the right capture |
| PawnRules.BothSidesComplete | selene_chess_bot/pieces/pawn.py:201-259 | the corrected search offers a capture onto every enemy piece diagonally ahead, as a promotion on the last rank |
| PawnRules.BothSidesAgreeOffLastRank | selene_chess_bot/pieces/pawn.py:201-247 | off the last rank the corrected search lists the same moves as the code as written |
| PawnRules.EnPassantSquare | selene_chess_bot/pieces/pawn.py:99-136 | the square behind a capturable enemy pawn beside this one, the left one first; none exactly when neither neighbour is such a pawn |
| PawnRules.EnPassantMoves | selene_chess_bot/pieces/pawn.py:138-154 | nothing without an en-passant square; otherwise one entry, the square itself by default, and with names it converts exactly when the square is on the board |
| PawnRules.PawnMovesShape | selene_chess_bot/pieces/pawn.py:73-97 | every coordinate move of a pawn is one or two squares straight ahead or a square it attacks |
| PawnRules.SetForwardMoves | selene_chess_bot/pieces/pawn.py:156-199 | the list grows by the forward moves of the specification function |
| PawnRules.SetCapturableMoves | selene_chess_bot/pieces/pawn.py:201-247 | the list grows by the captures of the specification function |
| PawnRules.CaptureSide | selene_chess_bot/pieces/pawn.py:211-227 | one side's capture as the specification function gives it |
| PawnRules.GetOnPassantSquare | selene_chess_bot/pieces/pawn.py:99-136 | the method finds the square of the specification function |
| PawnRules.CalculatePawnMoves | selene_chess_bot/pieces/pawn.py:73-97 | forward moves, then captures, then the en-passant move, as the specification function gives them |
| PawnRules.Coronate | selene_chess_bot/pieces/pawn.py:35-43 | the pawn is taken off its square and out of its list, and a new piece of the chosen kind and the pawn's colour takes its square and joins its list; each failure stops where it happens |
| Movetext.SplitCons | selene_chess_bot/pgn/pgn.py:180 | splitting text that starts with a separator-free piece and the separator gives that piece, then the split of the rest |
| Movetext.Turns | selene_chess_bot/pgn/pgn.py:97-100 | one turn per '.' in the text, none of them holding a '.' |
| Movetext.TurnsIgnorePrefix | selene_chess_bot/pgn/pgn.py:97-100 | the text before the first '.' is dropped and the rest is split at each '.' |
| Movetext.WhiteAndBlack | selene_chess_bot/pgn/pgn.py:166-188 | the white and black moves hold no space; a turn without a space is the white move alone |
| Movetext.WhiteAndBlackOf | selene_chess_bot/pgn/pgn.py:166-188 | a turn written `w b`, with or without more after a space, reads as the pair (w, b) |
| Movetext.Execute | selene_chess_bot/pgn/pgn.py:190-196 | False exactly when the game is running and the move raises a ValueError; any other exception escapes; a finished game's refusal still counts as True; the game changes only by a move that was played |
| Movetext.OneTurn | selene_chess_bot/pgn/pgn.py:106-129 | a turn without a black move plays the white move alone |
| Movetext.ReplayAppend | selene_chess_bot/pgn/pgn.py:102-129 | replaying two lists of turns is replaying the first and then, unless it stopped, the second |
| Movetext.StopsAtInvalid | selene_chess_bot/pgn/pgn.py:111-129 | once a move is reported invalid the loop stops: later turns change nothing |
| Movetext.FinishedGamePassesAll | selene_chess_bot/pgn/pgn.py:102-136 | on a finished game every turn passes and nothing changes |
| Movetext.WriteEntry | selene_chess_bot/pgn/pgn.py:154-162 | one entry is written exactly when it has two moves and both are played without an exception, as `key. white black ` |
| Movetext.ConvertStep | selene_chess_bot/pgn/pgn.py:154-164 | the text of several entries is the first entry's line followed by the text of the rest |
| Movetext.ConvertWrites | selene_chess_bot/pgn/pgn.py:138-164 | a successful conversion had two moves in every entry and produced the entries' move text |
| Movetext.IncompleteEntryRaises | selene_chess_bot/pgn/pgn.py:156-157 | an entry with fewer than two moves raises |
| Movetext.ConvertSucceeds | selene_chess_bot/pgn/pgn.py:138-164 | when every entry has two moves and no move raises, the conversion gives the move text |
| Movetext.PairsOf | selene_chess_bot/pgn/pgn.py:156-157 | the (white, black) pair of each entry, in order |
| Movetext.SplitMoveText | selene_chess_bot/pgn/pgn.py:97-100 | splitting written move text at '.' gives one piece per entry after the lead |
| Movetext.TurnsOfMoveText | selene_chess_bot/pgn/pgn.py:97-100 | the written text splits into one turn per entry, each ` white black ` followed by the next key |
| Movetext.WrittenTurnReadsShifted | selene_chess_bot/pgn/pgn.py:176-188 | a turn as the conversion writes it starts with a space, so its white move reads as "" and its black move as the white one |
| Movetext.EmptyMoveRaises | selene_chess_bot/game/piece_move.py:176-193 | an empty move raises an IndexError while it is being read |
| Movetext.WrittenTextRaises | selene_chess_bot/pgn/pgn.py:83-136 | the text the conversion writes cannot be read back: its first turn plays the empty move, whose IndexError escapes with the game unchanged |
| Movetext.FixedAgreesOnCompact | selene_chess_bot/pgn/pgn.py:176-188 | on a turn with no leading space, the whitespace split reads the same pair as the code as written |
| Movetext.FixedReadsTurn | selene_chess_bot/pgn/pgn.py:176-188 | the whitespace split reads a written turn ` w b key` as (w, b) |
| Movetext.ReadFixed | selene_chess_bot/pgn/pgn.py:102-106 | one pair per turn, each read with the whitespace split |
| Movetext.ReadsBack | selene_chess_bot/pgn/pgn.py:83-164 | with the corrected reading, the written move text reads back as the entries' pairs |
| Movetext.PieceAt | selene_chess_bot/pgn/pgn.py:162 | turn i of the written text is entry i's moves followed by the next entry's key |
| Movetext.PiecesAt | selene_chess_bot/pgn/pgn.py:162 | the pieces after entry j are the later entries' moves, each followed by the next key |
| Movetext.Converted | selene_chess_bot/pgn/pgn.py:64-81 | text comes back as it was given when it replays, and a dictionary as its move text |
| Movetext.Pgn.constructor | selene_chess_bot/pgn/pgn.py:59-61 | a new game in the starting position, white to move at turn 1, and an empty text |
| Movetext.Pgn.ExecuteMoveWithDebug | selene_chess_bot/pgn/pgn.py:190-196 | the game and the answer are those of the specification function |
| Movetext.Pgn.PlayTurn | selene_chess_bot/pgn/pgn.py:106-129 | one turn of the loop as the specification function gives it |
| Movetext.Pgn.CheckIfPgnIsValid | selene_chess_bot/pgn/pgn.py:83-136 | the game is the replay of the turns, and the text is returned unless an exception escaped |
| Movetext.Pgn.WriteLine | selene_chess_bot/pgn/pgn.py:156-162 | one entry's moves and line as the specification function gives them |
| Movetext.Pgn.ConvertDictToPgn | selene_chess_bot/pgn/pgn.py:138-164 | the game and the text are those of the specification function |
| Movetext.Pgn.ConvertToPgn | selene_chess_bot/pgn/pgn.py:64-81 | text is checked, a dictionary converted, as the specification function says |
| Movetext.NewPgn | selene_chess_bot/pgn/pgn.py:47-62 | the object exists exactly when converting the moves on a new game raises nothing, and then holds that game and text |
| SanMove.Stripped | selene_chess_bot/game/piece_move.py:292 | the text without any 'x', '+', '#' or '=', never longer than the move |
| SanMove.Abbreviate | selene_chess_bot/game/piece_move.py:280-296 | an IndexError exactly when nothing is left once the marks are removed; otherwise the stripped move without a leading 'P', free of marks |
| SanMove.StrippedAppend | selene_chess_bot/game/piece_move.py:292 | removing the marks from two texts put together is removing them from each |
| SanMove.AbbreviateUndecorated | selene_chess_bot/game/piece_move.py:292-294 | a move without marks and without a leading 'P' is its own abbreviation, and so is its 'P'-prefixed form |
| SanMove.StrippedDecoration | selene_chess_bot/game/piece_move.py:292 | a single mark is removed entirely |
| SanMove.StrippedUndecorated | selene_chess_bot/game/piece_move.py:292 | text without marks is left as it is |
| SanMove.StrippedCons | selene_chess_bot/game/piece_move.py:292 | the marks are removed character by character |
| SanMove.AbbreviateOf | selene_chess_bot/game/piece_move.py:292-296 | a move whose stripped text does not start with 'P' abbreviates to that text |
| SanMove.AbbreviateIgnoresDecoration | selene_chess_bot/game/piece_move.py:292 | inserting a mark anywhere does not change the abbreviation |
| SanMove.Classify | selene_chess_bot/game/piece_move.py:158-197 | an IndexError for an empty abbreviation, an InvalidMoveError exactly when it is no pawn move, no castling and no piece letter; a pawn exactly for two characters or a leading file or 'P'; castling is the king; otherwise the kind of the first letter |
| SanMove.CastlingSquare | selene_chess_bot/game/piece_move.py:298-317 | a square exactly for `O-O` and `O-O-O`: g or c on the mover's home rank, with the matching side |
| SanMove.CastlingTarget | selene_chess_bot/game/piece_move.py:213-218 | a castling text targets the king's castling square on its home rank with its side; any other text reaching here (`O-O+`) has no square, a TypeError |
| SanMove.PlainTarget | selene_chess_bot/game/piece_move.py:220-250 | an IndexError below two characters; otherwise the square is the last two characters (a promotion reads the square after the file), its coordinates are those of the name, and the rank and file hints are set as the code sets them |
| SanMove.SquareText | selene_chess_bot/game/piece_move.py:231-246 | the last two characters, except a pawn promotion, which reads the two after the file on a capture and the first two otherwise |
| SanMove.RowHint | selene_chess_bot/game/piece_move.py:222-226 | a rank hint exactly when a piece other than a pawn has a rank digit second, as that digit less one |
| SanMove.FileHint | selene_chess_bot/game/piece_move.py:232-248 | a pawn's file is its first character; another piece has one exactly when it is four characters long with a file letter second |
| SanMove.TargetOf | selene_chess_bot/game/piece_move.py:199-250 | a target that is found has a square name of at least two characters |
| SanMove.Coronation | selene_chess_bot/game/piece_move.py:252-263 | a promotion exactly for a pawn whose square is on rank 8 or 1 and whose last character is a piece letter, into that piece |
| SanMove.CellAt | selene_chess_bot/board/board.py:76-106 | the cell read with Python's negative indices: an IndexError exactly when an index is out of range, the cell itself on the board |
| SanMove.CaptureAt | selene_chess_bot/game/piece_move.py:265-278 | an IndexError exactly when the cell cannot be read; otherwise a capture exactly when an enemy piece stands there |
| SanMove.DecodeFrom | selene_chess_bot/game/piece_move.py:133-156 | a decoded move keeps its abbreviation and its capture flag is the one its target square gives |
| SanMove.ParseMove | selene_chess_bot/game/piece_move.py:69-156 | a parsed move has a non-empty abbreviation without marks and the capture flag of its target square |
| SanMove.FirstWithLetter | selene_chess_bot/game/piece_move.py:190-197 | the loop over the piece names finds the kind whose letter it is, or none |
| SanMove.PieceMove.constructor | selene_chess_bot/game/piece_move.py:96-115 | a new object holds the move, board and side, and no decoded attribute yet |
| SanMove.PieceMove.New | selene_chess_bot/game/piece_move.py:69-119 | the object exists exactly when the move parses, holds the parsed description, and otherwise the parse's error is raised |
| SanMove.PieceMove.SetAbbreviateMove | selene_chess_bot/game/piece_move.py:280-296 | the abbreviation is stored or its IndexError raised, as the specification function gives it |
| SanMove.PieceMove.SetMoveInformation | selene_chess_bot/game/piece_move.py:133-156 | the four steps store the description the specification function decodes, or raise its error |
| SanMove.PieceMove.SetPiece | selene_chess_bot/game/piece_move.py:158-197 | the kind, its letter and the castling flag are stored as the classification gives them, or its error is raised |
| SanMove.PieceMove.SetSquareAndPos | selene_chess_bot/game/piece_move.py:199-250 | the square, its coordinates, the rank and file hints and the castling side are stored as the target gives them, or its error is raised |
| SanMove.PieceMove.SetCoronation | selene_chess_bot/game/piece_move.py:252-263 | the promotion is stored as the specification function gives it and nothing else changes |
| SanMove.PieceMove.SetIsCapture | selene_chess_bot/game/piece_move.py:265-278 | the capture flag is set exactly when an enemy piece stands on the target, and an unreadable cell raises an IndexError |
| SanMove.PieceMove.MoveToCompare | selene_chess_bot/game/piece_move.py:121-129 | a pawn promotion compares the move without check marks; any other move its square |
| SanMoveExamples.PawnPush | selene_chess_bot/game/piece_move.py:179-182 | `e4` is a pawn move to e4 (row 3, column 4) from file e, not a castling |
| SanMoveExamples.PawnPushSteps | selene_chess_bot/game/piece_move.py:231-248 | `e4` abbreviates to itself, is a pawn move, and targets e4 from file e |
| SanMoveExamples.KnightWithFile | selene_chess_bot/game/piece_move.py:232-234 | `Ngf3` is a knight from file g to f3, without a rank hint |
| SanMoveExamples.KnightWithFileClassified | selene_chess_bot/game/piece_move.py:189-195 | `Ngf3` abbreviates to itself and is a knight move |
| SanMoveExamples.KnightWithFileSteps | selene_chess_bot/game/piece_move.py:231-250 | `Ngf3` targets f3 (row 2, column 5) with file hint g |
| SanMoveExamples.RookWithRank | selene_chess_bot/game/piece_move.py:222-226 | `R1e2` is a rook to e2 with rank hint 0 and no file hint |
| SanMoveExamples.RookWithRankClassified | selene_chess_bot/game/piece_move.py:189-195 | `R1e2` abbreviates to itself and is a rook move |
| SanMoveExamples.RookWithRankSteps | selene_chess_bot/game/piece_move.py:222-250 | `R1e2` targets e2 (row 1, column 4) with rank hint 0 |
| SanMoveExamples.UnknownPiece | selene_chess_bot/game/piece_move.py:196-197 | `jkn` names no piece and raises an InvalidMoveError |
| SanMoveExamples.Castling | selene_chess_bot/game/piece_move.py:184-188 | `O-O` and `O-O-O` are king moves flagged as castling, to g or c on the home rank, with their side |
| SanMoveExamples.CastlingSteps | selene_chess_bot/game/piece_move.py:213-218 | the castling texts abbreviate to themselves, classify as castling and target the castling square |
| SanMoveExamples.CastlingWithCheck | selene_chess_bot/game/piece_move.py:311-317 | `O-O+` is read as castling but finds no castling square, a TypeError |
| SanMoveExamples.CastlingWithCheckAbbreviates | selene_chess_bot/game/piece_move.py:292 | `O-O+` abbreviates to `O-O` |
| SanMoveExamples.ParseSteps | selene_chess_bot/game/piece_move.py:133-156 | once each step succeeds, the parse is the description those steps give |
| SanMoveExamples.StrippedSuffix | selene_chess_bot/game/piece_move.py:292 | a trailing check or mate mark is removed |
| SanMoveExamples.LetterStripped | selene_chess_bot/game/piece_move.py:292 | a piece letter is kept |
| SanMoveExamples.PushStrippedParts | selene_chess_bot/game/piece_move.py:292 | a promotion push's '=' is removed |
| SanMoveExamples.PushStripped | selene_chess_bot/game/piece_move.py:292 | `e8=Q` strips to `e8Q` |
| SanMoveExamples.CaptureStrippedParts | selene_chess_bot/game/piece_move.py:292 | a promotion capture's 'x' and '=' are removed |
| SanMoveExamples.CaptureStripped | selene_chess_bot/game/piece_move.py:292 | `dxe8=Q` strips to `de8Q` |
| SanMoveExamples.PushAbbreviated | selene_chess_bot/game/piece_move.py:280-296 | a promotion push with or without a check mark abbreviates to file, rank and letter |
| SanMoveExamples.PushMarks | selene_chess_bot/game/piece_move.py:241-246 | a promotion push holds '=' and no 'x' |
| SanMoveExamples.PushTargeted | selene_chess_bot/game/piece_move.py:236-250 | a promotion push targets its own file and rank, with its file as the pawn's file |
| SanMoveExamples.PromotionPush | selene_chess_bot/game/piece_move.py:236-263 | `e8=Q` (with any check mark) is a pawn push to e8 promoting into the queen |
| SanMoveExamples.CaptureAbbreviated | selene_chess_bot/game/piece_move.py:280-296 | a promotion capture abbreviates to the two files, the rank and the letter |
| SanMoveExamples.CaptureTargeted | selene_chess_bot/game/piece_move.py:241-250 | a promotion capture targets the square after the pawn's file |
| SanMoveExamples.PromotionCapture | selene_chess_bot/game/piece_move.py:236-263 | `dxe8=Q` is a pawn from file d capturing on e8 and promoting into the queen |
| SanMoveExamples.PushWithoutMark | selene_chess_bot/game/piece_move.py:127 | removing the check marks from a promotion push leaves `e8=Q` |
| SanMoveExamples.PromotionCompare | selene_chess_bot/game/piece_move.py:121-127 | a promotion push is compared as written, without its check mark |
| SanMoveExamples.SquareCompare | selene_chess_bot/game/piece_move.py:121-129 | any move without a promotion is compared by its square |
| SanMoveExamples.CaptureFlag | selene_chess_bot/game/piece_move.py:265-278 | a move onto the board is a capture exactly when an enemy piece stands on its square |
| RookRules.SquaresOf | selene_chess_bot/pieces/rook.py:79-95 | the squares as coordinate entries, one per square, in order |
| RookRules.ReachMeans | selene_chess_bot/pieces/piece.py:918-969 | the reachable part of a line is a prefix of it, and a square is in it exactly when every square before it is empty and it is empty or holds an enemy piece |
| RookRules.TrimmedScanIsReach | selene_chess_bot/pieces/rook.py:78-95 | a line scanned up to the first piece and trimmed by `_check_capturable_moves` is the reachable part of the line |
| RookRules.TrimLastCons | selene_chess_bot/pieces/piece.py:918-969 | trimming looks only at the last entry: a square in front is kept |
| RookRules.ReachOnEmptyGrid | selene_chess_bot/pieces/piece.py:918-969 | on an empty board the whole line is reachable |
| RookRules.RookLines | selene_chess_bot/pieces/rook.py:60-73 | four lines, down and up the column then down and up the row, all on the board |
| RookRules.ReachedSquare | selene_chess_bot/pieces/piece.py:918-969 | a reachable square is on the line and is empty or holds an enemy piece |
| RookRules.RookLineSquares | selene_chess_bot/pieces/piece.py:457-521 | every square of a rook line shares the rook's row or column and is not the rook's own square |
| RookRules.RookTargetsOnLines | selene_chess_bot/pieces/rook.py:50-103 | every rook target is on the board, on the rook's row or column, not its own square, and empty or an enemy |
| RookRules.RookFourteenOnEmptyBoard | selene_chess_bot/pieces/rook.py:50-103 | on an empty board a rook has fourteen targets from any square |
| RookRules.PieceToAlgPosition | selene_chess_bot/pieces/rook.py:105-111 | a list that does not end at a piece is unchanged; otherwise only the last entry becomes that piece's square name, which fails off the board |
| RookRules.CalculateRookMoves | selene_chess_bot/pieces/rook.py:36-103 | as written, every call raises a TypeError, because `scan_column` takes no `get_in_algebraic_notation` |
| RookRules.RookLegalMoves | selene_chess_bot/pieces/rook.py:50-103 | corrected: the rook's moves are exactly its targets along its four lines, the column first |
| RookRules.ScanRookLines | selene_chess_bot/pieces/rook.py:60-95 | the four default scans of the rook's column and row, each trimmed, in order |
| RookRules.TrimLines | selene_chess_bot/pieces/rook.py:78-95 | the four trimmed scans in the order the code adds them |
| RookRules.TrimmedLinesAreTargets | selene_chess_bot/pieces/rook.py:78-95 | the four trimmed scans together are the rook's targets |
| RookRules.SquaresOfConcat | selene_chess_bot/pieces/rook.py:79-95 | turning squares into entries commutes with putting lists together |
| Scans.Down | selene_chess_bot/pieces/piece.py:876 | `range(from - 1, -1, -1)`: the values below `from`, nearest first |
| Scans.Up | selene_chess_bot/pieces/piece.py:892 | `range(from + 1, 8)`: the values above `from` up to 7, nearest first |
| Scans.Line | selene_chess_bot/pieces/piece.py:878-879 | one square per value, the value in the row for a column scan and in the column for a row scan |
| Scans.Zip | selene_chess_bot/pieces/piece.py:983 | `zip`: as long as the shorter list, pairing the entries in order |
| Scans.WalkFollowsPath | selene_chess_bot/pieces/piece.py:876-889 | a scan visits a prefix of its path in order, each entry the square (empty, or a piece turned into its square) or the piece found there |
| Scans.WalkStopsAtFirstPiece | selene_chess_bot/pieces/piece.py:884-889 | stopping at pieces, every square before the last visited is empty, and a scan that ends early ends at a piece |
| Scans.WalkWithoutStop | selene_chess_bot/pieces/piece.py:888-889 | without stopping at pieces the whole path is visited |
| Scans.KingIsPassed | selene_chess_bot/pieces/piece.py:906-908 | with trespassing on, the king of the given colour is recorded and the scan goes on past it |
| Scans.WalkStep | selene_chess_bot/pieces/piece.py:881-911 | one step of a scan: an empty square is recorded and the scan goes on; a piece is recorded and the scan goes on or stops |
| Scans.ScanDirection | selene_chess_bot/pieces/piece.py:860-916 | the two loops give the scans of the specification function, trespassing only in the second direction |
| Scans.WalkLine | selene_chess_bot/pieces/piece.py:983-999 | the loop over a path gives the scan of the specification function |
| Scans.WalkContinues | selene_chess_bot/pieces/piece.py:881-908 | a step that goes on keeps the loop's invariant one square further |
| Scans.WalkStops | selene_chess_bot/pieces/piece.py:888-889 | a step that stops completes the scan |
| Scans.ScanColumn | selene_chess_bot/pieces/piece.py:457-488 | down the column, then up it with trespassing, as the specification function gives them |
| Scans.ScanRow | selene_chess_bot/pieces/piece.py:490-521 | left along the row, then right with trespassing, as the specification function gives them |
| Scans.ColumnPath | selene_chess_bot/pieces/piece.py:876-895 | a column scan visits the squares below and then above the piece, nearest first |
| Scans.LinesOnBoard | selene_chess_bot/pieces/piece.py:876-895 | the row and column lines from a square stay on the board |
| Scans.CheckRowAndColumns | selene_chess_bot/pieces/piece.py:971-1001 | the loop over the zipped squares gives the scan of the specification function |
| Scans.DiagonalSquares | selene_chess_bot/pieces/piece.py:523-586 | the k-th square of a diagonal is k+1 steps away in each coordinate, and every square is on the board |
| Scans.DiagonalLength | selene_chess_bot/pieces/piece.py:523-586 | a diagonal is as long as the nearer of the two edges it runs towards |
| Scans.DownSteps | selene_chess_bot/pieces/piece.py:876 | the values below are one, two, ... steps down, on the board |
| Scans.UpSteps | selene_chess_bot/pieces/piece.py:892 | the values above are one, two, ... steps up, on the board |
| Scans.ZipSquares | selene_chess_bot/pieces/piece.py:983 | zipping two runs of steps gives the squares that many steps away, on the board |
| Scans.ScanDiagonals | selene_chess_bot/pieces/piece.py:523-586 | the four diagonal scans are on the board and are those of the specification function |
| Scans.TrimLast | selene_chess_bot/pieces/piece.py:947-958 | only the last entry is looked at: a friendly piece is dropped, an enemy piece becomes its square, anything else is kept |
| Scans.TrimAllLeavesSquares | selene_chess_bot/pieces/piece.py:960-968 | the corrected whole-list check leaves no piece and never makes the list longer |
| Scans.TrimAllIsTrimLast | selene_chess_bot/pieces/piece.py:947-968 | on a scan, where only the last entry can be a piece, checking every entry and checking the last agree |
| Scans.CheckCapturableMoves | selene_chess_bot/pieces/piece.py:918-969 | the last-entry check trims the last entry; the whole-list check is the code as written, whose pop skips the following entry |
| Scans.SweepSkipsAfterPop | selene_chess_bot/pieces/piece.py:960-968 | two friendly pieces in a row: the pop skips the second, which stays in the list, where the corrected check removes both |
| Scans.SweepAgreesOnScans | selene_chess_bot/pieces/piece.py:960-968 | when only the last entry can be a piece, the code as written and the corrected check agree |
| Scans.KnightAt | selene_chess_bot/pieces/piece.py:415-419 | at most one knight per offset |
| Scans.GetKnightsAttackingMe | selene_chess_bot/pieces/piece.py:395-419 | the loop over the eight offsets collects the knights of the specification function, in offset order |
| Scans.KnightsStep | selene_chess_bot/pieces/piece.py:414-419 | one offset of the loop keeps its invariant |
| Scans.KnightsAttacking | selene_chess_bot/pieces/piece.py:395-419 | a piece is collected exactly when it is an enemy knight a knight's move away |
| Scans.KnightFoundAt | selene_chess_bot/pieces/piece.py:395-419 | a collected knight stands at one of the offsets and is an enemy knight |
| Scans.KnightOnIsFound | selene_chess_bot/pieces/piece.py:395-419 | an enemy knight at an offset is collected |
| Scans.EnemiesOn | selene_chess_bot/pieces/piece.py:290-307 | an IndexError exactly when one of the squares cannot be read |
| Scans.EnemiesOnStep | selene_chess_bot/pieces/piece.py:300-305 | one square of the loop: an unreadable square raises, an enemy piece is collected, anything else is passed over |
| Scans.GetPiecesUnderAttack | selene_chess_bot/pieces/piece.py:290-307 | the loop gives the enemies of the specification function |
| Scans.EnemiesOnAreEnemies | selene_chess_bot/pieces/piece.py:290-307 | every collected piece is an enemy standing on one of the squares |
| StateTable.StateManager.constructor | selene_chess_bot/alpha_zero/state_manager.py:6-7 | a new table is empty |
| StateTable.StateManager.GetState | selene_chess_bot/alpha_zero/state_manager.py:9-19 | a stored hash returns its node and leaves the table as it was; a new hash gets a fresh node with that hash and turn, stored under it, and no other entry changes |
| StateTable.StateManager.AddState | selene_chess_bot/alpha_zero/state_manager.py:21-29 | the same outcome as `get_state`, and afterwards the table maps the hash to the returned node |
| StateTable.NewState | selene_chess_bot/alpha_zero/state_manager.py:17 | a fresh node with the given hash and turn, no visits, no links and nothing explored |
| StateTable.AddStateTwice | selene_chess_bot/alpha_zero/state_manager.py:21-29 | asking a new table twice for one hash, even with another turn, returns one node, the first turn's, and the table holds one entry |
| StateTable.GetThenAdd | selene_chess_bot/alpha_zero/state_manager.py:9-29 | `add_state` after `get_state` for one hash returns the same unvisited node and the table holds one entry |
| SearchGraph.Keys | selene_chess_bot/alpha_zero/node.py:133 | the keys of a `children` dictionary, one per entry, in insertion order |
| SearchGraph.Lookup | selene_chess_bot/alpha_zero/node.py:133 | a key is found exactly when it is one of the keys, and then with the child stored under it |
| SearchGraph.Put | selene_chess_bot/alpha_zero/node.py:208 | `children[move] = child`: a new key is appended at the end and an existing key keeps its place; the key then maps to the new child and every other key keeps its lookup |
| SearchGraph.PutKeepsKeysDistinct | selene_chess_bot/alpha_zero/node.py:208 | storing under a key never makes two entries with one key |
| SearchGraph.GameStateNode.constructor | selene_chess_bot/alpha_zero/node.py:93-148 | the node keeps the given FEN, result, hash, turn, termination flag and moves to explore, with no parents, no children, no visits and nothing explored |
| SearchGraph.GameStateNode.AddExploredMove | selene_chess_bot/alpha_zero/node.py:162-171 | the move joins the explored set; links and visits stay |
| SearchGraph.GameStateNode.AddParent | selene_chess_bot/alpha_zero/node.py:173-190 | `None` is refused with False and changes nothing; another node is added once to the parents and True is returned; nothing else changes |
| SearchGraph.GameStateNode.AddChild | selene_chess_bot/alpha_zero/node.py:192-209 | always True; the children become `Put` of the move and child, and nothing else changes |
| SearchGraph.GameStateNode.IncrementVisits | selene_chess_bot/alpha_zero/node.py:211-215 | one more visit; links and explored moves stay |
| SearchGraph.GameStateNode.GetUntriedMove | selene_chess_bot/alpha_zero/node.py:263-276 | a returned move is one to explore that is not explored yet; nothing (Python's False) is returned exactly when every move to explore was explored |
| SearchGraph.GameStateNode.Backpropagate | selene_chess_bot/alpha_zero/node.py:359-373 | every node on the chain of first parents from this one to a node without parents gets exactly one more visit, and no links change |
| SearchGraph.FirstParent | selene_chess_bot/alpha_zero/node.py:373 | `next(iter(node.parents), None)`: None exactly when there are no parents, otherwise one of the parents |
| SearchGraph.ChainIsSimple | selene_chess_bot/alpha_zero/node.py:370-373 | a first-parent chain that reaches a node without parents visits no node twice, so the loop increments each node once |
| SearchGraph.ChainRepeats | selene_chess_bot/alpha_zero/node.py:370-373 | a node met twice on a first-parent chain repeats everything after it |
| SearchGraph.FullyExpandedIffNothingUntried | selene_chess_bot/alpha_zero/node.py:151-160 | with the explored moves among those to explore, equal counts hold exactly when no move is left untried |
| SearchGraph.SubsetSmaller | selene_chess_bot/alpha_zero/node.py:160 | a subset is no larger than its superset, the step from counts to sets |
| Zobrist.LetterPos | selene_chess_bot/game/zobriest_hash.py:18 | the place of a piece letter in `['P', 'N', 'B', 'R', 'Q', 'K']`, below 6 and holding that letter |
| Zobrist.PieceIndexBound | selene_chess_bot/game/zobriest_hash.py:19-28 | every (letter, colour, row, column) feature is one of the 768 piece draws |
| Zobrist.PieceIndexInjective | selene_chess_bot/game/zobriest_hash.py:19-28 | two piece features with the same draw number are the same feature: no draw is shared |
| Zobrist.MatchesComplete | selene_chess_bot/game/zobriest_hash.py:13-50 | a table filled from a stream has a key for every piece feature, castling right, en-passant file and side |
| Zobrist.Deterministic | selene_chess_bot/game/zobriest_hash.py:15 | with the seed fixed, the table is a function of the stream: two tables filled from one stream are equal |
| Zobrist.DistinctDraws | selene_chess_bot/game/zobriest_hash.py:19-28 | distinct piece features take their keys from distinct stream positions |
| Zobrist.ZobristHash.constructor | selene_chess_bot/game/zobriest_hash.py:10-11 | the singleton's `keys` are the table filled from the stream |
| Zobrist.PiecesStep | selene_chess_bot/game/zobriest_hash.py:28 | one more piece draw extends the part of the table filled so far by the next stream value |
| Zobrist.EnPassantStep | selene_chess_bot/game/zobriest_hash.py:36-43 | one more en-passant draw extends the part filled so far by the next stream value |
| Zobrist.InitializePieceKeys | selene_chess_bot/game/zobriest_hash.py:19-28 | the piece loops: letter, colour, row, column, innermost last, each taking the next value |
| Zobrist.InitializeSquareKeys | selene_chess_bot/game/zobriest_hash.py:26-28 | the 64 draws of one letter and colour, row by row, continue the filled part |
| Zobrist.InitializeEnPassantKeys | selene_chess_bot/game/zobriest_hash.py:36-43 | white's eight columns, then black's, each taking the next value after the 772 piece and castling draws |
| Zobrist.InitializeZobristKeys | selene_chess_bot/game/zobriest_hash.py:13-50 | `_initialize_zobrist_keys`: the whole table matches the stream in the order its loops draw |
| Zobrist.XorZero | selene_chess_bot/game/enconder.py:119 | the starting value 0 changes nothing when XOR-ed |
| Zobrist.XorAssoc | selene_chess_bot/game/enconder.py:130 | XOR is associative, so the order of the `^=` steps is free |
| Zobrist.XorComm | selene_chess_bot/game/enconder.py:130 | XOR is commutative |
| Zobrist.XorSelf | selene_chess_bot/game/enconder.py:130 | XOR-ing a key twice removes it |
| Zobrist.XorSeqConcat | selene_chess_bot/game/enconder.py:119-145 | the XOR of two runs of keys is the XOR of their two results |
| Zobrist.XorSeqSingle | selene_chess_bot/game/enconder.py:130 | the XOR of one key is that key |
| Zobrist.XorSeqAppend | selene_chess_bot/game/enconder.py:130 | one more `^=` step XORs the result with the key |
| Zobrist.XorSeqRemove | selene_chess_bot/game/enconder.py:119-145 | any one key can be taken out of a run and XOR-ed in separately |
| Zobrist.XorSeqPermutation | selene_chess_bot/game/enconder.py:119-145 | any reordering of the keys gives the same hash |
| Zobrist.XorSeqEnabled | selene_chess_bot/game/enconder.py:135-136 | an enabled right contributes its key, a disabled one nothing |
| Zobrist.FlagToggle | selene_chess_bot/game/enconder.py:135-136 | toggling a right changes its contribution by exactly its key |
| Zobrist.PieceKeys | selene_chess_bot/game/enconder.py:122-130 | one key per square before (row, column), row-major, zero for an empty square |
| Zobrist.CastlingKeys | selene_chess_bot/game/enconder.py:133-136 | at most one key per right among the first `n` rights |
| Zobrist.ToBytes | selene_chess_bot/game/enconder.py:147 | `to_bytes(8, byteorder='big')`: eight bytes, the most significant first, byte `i` holding bits `8i`..`8i+7` |
| Zobrist.FromBytesSlices | selene_chess_bot/game/enconder.py:147 | joining the byte slices of a value gives the value back |
| Zobrist.BytesRoundTrip | selene_chess_bot/game/enconder.py:147 | reading the eight bytes back gives the hash value: nothing is lost |
| Zobrist.ToBytesInjective | selene_chess_bot/game/enconder.py:147 | two hash values have the same bytes exactly when they are equal |
| Zobrist.EnPassantIndexAsWritten | selene_chess_bot/game/enconder.py:141 | `int(en_passant_pos[1])`: defined exactly when the second character is a digit below 8, and then that digit, the rank |
| Zobrist.EnPassantIndex | selene_chess_bot/game/enconder.py:140-142 | the file of the square, the index the table is laid out for (`selene_chess_bot/game/zobriest_hash.py:43`), always 0..7 |
| Zobrist.HashOf | selene_chess_bot/game/enconder.py:119-147 | given the en-passant index, a hash is eight bytes |
| Zobrist.ComputeGameStateHashAsWritten | selene_chess_bot/game/enconder.py:113-147 | `compute_game_state_hash` as written, indexing the en-passant keys by the rank digit; a hash is eight bytes |
| Zobrist.BoardHash | selene_chess_bot/game/enconder.py:122-130 | the nested loop XORs the key of every occupied square, equal to the XOR of `PieceKeys` over the board |
| Zobrist.PieceKeysStep | selene_chess_bot/game/enconder.py:122-130 | one more square XORs the running value with that square's key |
| Zobrist.CastlingStep | selene_chess_bot/game/enconder.py:133-136 | one more right XORs the running value with its key when enabled |
| Zobrist.CastlingHash | selene_chess_bot/game/enconder.py:133-136 | the castling loop equals the XOR of `CastlingKeys` over all four rights |
| Zobrist.ComputeGameStateHash | selene_chess_bot/game/enconder.py:113-147 | `compute_game_state_hash` with the en-passant key indexed by file (the corrected member): pieces, then rights, then the en-passant key, then the side key, as eight bytes; an en-passant string with no readable file gives the error the lookup raises |
| Zobrist.CastlingXor | selene_chess_bot/game/enconder.py:133-136 | the castling part is one XOR of four flags, one per right |
| Zobrist.CastlingKeysToggle | selene_chess_bot/game/enconder.py:133-136 | toggling one right changes the castling part by exactly that right's key |
| Zobrist.XorToggleAt | selene_chess_bot/game/enconder.py:133-136 | a key XOR-ed into any one of four terms moves out to the end |
| Zobrist.CastlingToggle | selene_chess_bot/game/enconder.py:113-147 | toggling one castling right changes the whole hash value by exactly that right's key |
| Zobrist.XorToggleOuter | selene_chess_bot/game/enconder.py:119-145 | a key XOR-ed into the castling part moves out of the whole hash |
| Zobrist.EnPassantRankCollision | selene_chess_bot/game/enconder.py:141 | as written, a position with the en-passant square d4 and the same position with e4 hash alike, whatever the keys |
| Zobrist.EnPassantFileDistinguishes | selene_chess_bot/game/enconder.py:140-142 | indexed by file, those two positions hash alike exactly when their two en-passant keys coincide |
| LegacyBoard.SquareOrPiece | board/board.py:100-106 | an empty square gives its coordinates as a list, an occupied one gives the piece standing there |
| LegacyBoard.Scan | pieces/piece.py:181-221 | each entry of a scan is what `get_square_or_piece` gives for the matching square of the path, from the piece outwards, and the scan is never longer than the path |
| LegacyBoard.ScanShape | pieces/piece.py:203-216 | without `end_at_piece_found` every square of the path is listed; with it every entry but the last is an empty square, and the scan stops short only just after a piece |
| LegacyBoard.ScanEmptyGrid | pieces/piece.py:181-221 | on a grid without pieces a scan lists every square of its path as coordinates |
| LegacyBoard.ScanAlong | pieces/piece.py:203-216 | the loop of a scan collects exactly `Scan` of its path |
| LegacyBoard.TrimLast | pieces/rook.py:34-50 | `_check_moves_list`, and `_check_capturable_moves` with `check_only_last_move` (pieces/piece.py:82-93): a list not ending in a piece is kept; a final own piece is dropped; a final enemy piece is replaced by the tuple of its position; the entries before it are kept |
| LegacyBoard.SweepWithoutOwnPieces | pieces/piece.py:94-103 | without own pieces in the list, the sweep keeps its length and replaces each enemy piece by the tuple of its position |
| LegacyBoard.SweepKeepsSecondOwnPiece | pieces/piece.py:94-103 | as written, popping inside `enumerate` skips the next entry: of two own pieces side by side the second stays in the list |
| LegacyBoard.Undone | pieces/piece.py:174-179 | `undo_move` without a record changes nothing; otherwise exactly one record goes |
| LegacyBoard.UndoTakesBackRecord | pieces/piece.py:167-179 | undoing takes back exactly the record just added: the story is as before, the piece is on the square the record names, and it counts as unmoved again exactly when the record was move 1 or it was unmoved before |
| LegacyBoard.UndoAfterMoveStaysPut | pieces/pieces.py:54-71 | the record a move writes holds the square reached, so undoing it leaves the piece where it went; only a record of move 1 brings back its first move |
| LegacyBoard.Piece.constructor | pieces/piece.py:15-31 | a new piece has the given kind, colour, square and board, no record, its first move ahead and no captor |
| LegacyBoard.Piece.AlgebraicPos | pieces/piece.py:37-39 | the square name of the piece's position, two characters long, and a KeyError exactly when the position is off the board |
| LegacyBoard.Piece.SingChar | pieces/piece.py:49-51 | the letter of the piece's name, which names its kind back |
| LegacyBoard.Piece.Capture | pieces/piece.py:106-107 | the captor is recorded and the piece counts as captured; its square and record are unchanged |
| LegacyBoard.Piece.Move | pieces/pieces.py:54-57 | the piece stands on the new square and its first move is spent; its record and captor are unchanged |
| LegacyBoard.Piece.AddMoveToStory | pieces/piece.py:167-172 | the record grows by the (move number, square) entry and nothing else changes |
| LegacyBoard.Piece.UndoMove | pieces/piece.py:174-179 | the piece becomes `Undone` of what it was; captor and en-passant flag are unchanged |
| LegacyBoard.Piece.ScanColumn | pieces/piece.py:181-221 | `d0` is the scan of the column towards row 0, `d1` towards row 7 |
| LegacyBoard.Piece.ScanRow | pieces/piece.py:223-266 | `d0` is the scan of the row towards column 0, `d1` towards column 7 |
| LegacyBoard.Piece.ScanDiagonals | pieces/piece.py:268-333 | the four lists are the scans of the four diagonals, in the order the source zips its ranges |
| LegacyBoard.Piece.ScanDiagonal | pieces/piece.py:292-326 | one diagonal loop collects exactly the scan of that diagonal |
| LegacyBoard.Piece.CheckCapturableMoves | pieces/piece.py:53-104 | with `check_only_last_move` the list is trimmed by `TrimLast`; otherwise it is swept entry by entry as the source's loop does |
| LegacyBoard.LetterNamesKind | pieces/utilites.py:18-24 | the letter of each piece name maps back to that name |
| LegacyBoard.SetUpSquares | board/board.py:309-496 | the squares a set-up helper fills are exactly the squares of the starting position that hold its kind, in the colour of their rank |
| LegacyBoard.SetUpCounts | board/board.py:309-496 | each set-up helper places as many pieces as the starting position has of its kind |
| LegacyBoard.FullStageIsInitial | board/board.py:111-127 | once all six helpers have run the grid is the starting position |
| LegacyBoard.Board.constructor | board/board.py:11-24 | a new board is set up, holds the starting position, and each colour's dictionary holds the six lists in the helpers' order |
| LegacyBoard.Board.GetSquareOrPiece | board/board.py:76-106 | an IndexError exactly when an index is outside Python's -8..7; on the board the entry of `SquareOrPiece` |
| LegacyBoard.Board.CreateEmptyBoard | board/board.py:108-109 | a new eight by eight grid of empty cells |
| LegacyBoard.Board.KingGuard | board/board.py:176-194 | once set up, a king is refused exactly when its colour's king list is non-empty (or the colour is missing); before set-up nothing is refused |
| LegacyBoard.Board.AddTarget | board/board.py:176-220 | a square is chosen only when the king guard passes, it is on the grid under Python indexing, it is empty when emptiness is checked, and a piece given by name has a colour |
| LegacyBoard.Board.AddPiece | board/board.py:129-224 | fails exactly when `AddTarget` does, leaving the grid; otherwise the piece (the given one, or a new one of that kind and colour) is written on that cell and only there; the dictionaries are never touched |
| LegacyBoard.Board.PlaceOne | board/board.py:314-321 | one `add_piece` of the set-up: a new unmoved piece of that kind and colour on that empty square |
| LegacyBoard.Board.PlaceRow | board/board.py:340-372 | the appends of one colour: a new piece per column, on its square of that row; other squares unchanged |
| LegacyBoard.Board.CreateInitialPawnSetUp | board/board.py:309-333 | after the pawn helper the grid holds the pawns of the starting position and each colour has its pawn list |
| LegacyBoard.Board.PlacePawns | board/board.py:312-330 | the loop places a white pawn on row 1 and a black one on row 6 in every column, new and unmoved, and changes no other row |
| LegacyBoard.Board.PlacePawnPair | board/board.py:314-330 | one turn of the pawn loop writes the two pawns of one column |
| LegacyBoard.Board.CreateInitialKindSetUp | board/board.py:335-496 | each later helper adds its kind's pieces of the starting position, and one more list per colour |
| LegacyBoard.Board.PlaceKindRows | board/board.py:335-496 | a helper's appends: white pieces on the home row, black ones on the other, at the helper's columns; every other square unchanged |
| LegacyBoard.Board.StageStep | board/board.py:335-496 | what a helper wrote extends the starting position set so far by its kind |
| LegacyBoard.Board.CreateInitialBoardSetUp | board/board.py:111-127 | a ValueError once set up, changing nothing; otherwise the starting position, all six lists per colour, and the board marked set up |
| LegacyBoard.Board.FirstHelpers | board/board.py:120-122 | the pawn, knight and bishop helpers leave the first three stages |
| LegacyBoard.Board.LastHelpers | board/board.py:123-125 | the rook, queen and king helpers complete the set-up |
| LegacyBoard.IsPositionOnBoard | board/board.py:31-66 | as written: true exactly when both coordinates are given and lie in 1..7 |
| LegacyBoard.ZeroRefused | board/board.py:58 | row 0 and column 0 are on the board, yet the check as written refuses them |
| LegacyBoard.IsPositionOnBoardFixed | board/board.py:37-52 | as described: true exactly when both coordinates are given and lie in 0..7 |
| LegacyBoard.FixedDiffersOnlyAtZero | board/board.py:54-66 | the two checks disagree exactly on a position on the board with row or column 0 |
| LegacyRules.RookPaths | pieces/piece.py:181-266 | the four straight paths of a piece, all on the board |
| LegacyRules.QueenPaths | pieces/queen.py:43-57 | the eight paths a queen sweeps, the four diagonals first, all on the board |
| LegacyRules.TrimmedRay | pieces/rook.py:34-50 | a trimmed scan is the empty squares before the first piece, then that piece's square as a tuple when it is an enemy; the whole path when there is no piece |
| LegacyRules.FirstPiece | pieces/piece.py:203-216 | a scan that stops at a piece lists the empty squares before it, then the piece; the whole path as coordinates when there is none |
| LegacyRules.TrimmedRayTargets | pieces/rook.py:34-50 | every entry of a trimmed scan is an empty square as a list or an enemy's square as a tuple |
| LegacyRules.SweptTargets | pieces/queen.py:43-57 | every move a rook or queen collects is an empty square or an enemy's square: never an own piece |
| LegacyRules.SweptReachesEnemy | pieces/queen.py:43-57 | the first piece on a ray, when it is an enemy, is among the moves as a tuple of its square |
| LegacyRules.SweptReachesEmpty | pieces/queen.py:43-57 | every empty square before the first piece of a ray is among the moves |
| LegacyRules.SweptEmptyGrid | pieces/queen.py:43-57 | on an empty board every square of every path is a move, as coordinates |
| LegacyRules.RookOnEmptyBoard | pieces/rook.py:52-81 | a rook alone on the board has 14 moves from any square |
| LegacyRules.QueenOnEmptyBoard | pieces/queen.py:34-64 | a queen alone on the board has the rook's 14 moves plus one per diagonal square it reaches |
| LegacyRules.QueenInCentre | pieces/queen.py:34-64 | a queen alone on e5 has 27 moves |
| LegacyRules.OwnSquaresExcluded | pieces/rook.py:52-81 | neither a rook nor a queen ever lists a square of its own side |
| LegacyRules.RookReachesBlocker | pieces/rook.py:52-81 | along each of its paths a rook reaches every empty square up to the first piece, and captures that piece when it is an enemy |
| LegacyRules.QueenReachesBlocker | pieces/queen.py:34-64 | the same for a queen, along each of its eight paths |
| LegacyRules.NameOf | core/utilities.py:25-34 | a move entry has a name exactly when it is a square on the board |
| LegacyRules.Names | pieces/rook.py:76-79 | the algebraic names of a move list, one per move, in order, and an error as soon as a move is not a board square |
| LegacyRules.NamesInjective | pieces/rook.py:76-79 | two moves with the same name are the same square |
| LegacyRules.PawnMoves | pieces/pawn.py:41-113 | every pawn move is a tuple one or two rows ahead, in a column of the board; an IndexError is the only failure |
| LegacyRules.PawnPushes | pieces/pawn.py:64-81 | the pushes raise an IndexError exactly when the square ahead is off the grid, or the pawn on its first move sees that square empty and the one beyond off the grid |
| LegacyRules.PawnIndexError | pieces/pawn.py:64-81 | the pawn's list fails exactly under those two conditions |
| LegacyRules.PawnPush | pieces/pawn.py:64-72 | the square ahead is a move exactly when it is empty |
| LegacyRules.PawnDoublePush | pieces/pawn.py:74-81 | the square two ahead is a move exactly on the first move with both squares empty |
| LegacyRules.PawnCaptures | pieces/pawn.py:83-106 | a diagonal square ahead is a move exactly when it is on the board and holds an enemy piece |
| LegacyRules.WhitePawnOnLastRow | pieces/pawn.py:65-70 | a white pawn on the last row raises an IndexError, since the square ahead is past the grid |
| LegacyRules.SlidingNamesExist | pieces/rook.py:76-79 | on a consistent board every move of a rook or queen has an algebraic name |
| LegacyRules.FlattenMembers | board/board.py:250-256 | the loop of `get_legal_moves` visits every piece of every list and no other |
| LegacyRules.PieceResults | board/board.py:252-256 | one result per piece, the piece's own list of moves |
| LegacyRules.LegalOfAllGathered | board/board.py:248-258 | the combined list is the pieces' lists in order, up to the first piece that raises |
| LegacyRules.FirstFailure | board/board.py:252-256 | when every piece before one has moves, the combined result is that piece's result |
| LegacyRules.StubKindFails | pieces/knight.py:31-32 | a knight or bishop anywhere in the lists makes `get_legal_moves` fail, since its `calculate_legal_moves` takes no keyword |
| LegacyRules.InitialBoardFails | board/board.py:242-258 | on the starting position `get_legal_moves` raises a TypeError for either colour |
| LegacyRules.KnightAfterPawns | board/board.py:250-256 | pawns that all have moves, then a list starting with a knight: a TypeError |
| LegacyRules.StagePieces | board/board.py:309-496 | every piece in a set-up dictionary stands on its own square of that board |
| LegacyRules.InitialPawnMoves | pieces/pawn.py:41-113 | each pawn of the starting position has a list of moves |
| LegacyRules.KnightOnStage | board/board.py:335-372 | the second list of each colour starts with a knight |
| LegacyRules.CheckMovesList | pieces/rook.py:34-50 | `_check_moves_list` gives `TrimLast` of its list |
| LegacyRules.RookLegalMoves | pieces/rook.py:52-81 | the rook's moves are the four trimmed scans, columns first, shown by name when asked |
| LegacyRules.TrimmedStraightRays | pieces/rook.py:60-72 | the four trimmed scans of the rook's column and row |
| LegacyRules.TrimmedColumns | pieces/rook.py:68-69 | the two trimmed scans of the column |
| LegacyRules.TrimmedRows | pieces/rook.py:71-72 | the two trimmed scans of the row |
| LegacyRules.RookMovesAre | pieces/rook.py:57-74 | the rook's sweep is the column scans then the row scans, each trimmed |
| LegacyRules.QueenMovesAre | pieces/queen.py:43-57 | a queen's moves are its four trimmed diagonals followed by a rook's moves from its square |
| LegacyRules.QueenLegalMoves | pieces/queen.py:34-64 | the queen's moves are `QueenMoves` of its square, shown by name when asked |
| LegacyRules.DiagonalMoves | pieces/queen.py:43-47 | the diagonal loop collects the four trimmed diagonals in order |
| LegacyRules.TrimmedDiagonals | pieces/queen.py:44-47 | each diagonal scan trimmed by `_check_capturable_moves` |
| LegacyRules.TrimmedStraightLines | pieces/queen.py:50-57 | the column and row parts of the queen's moves are a rook's moves from its square |
| LegacyRules.QueenColumns | pieces/queen.py:53-54 | the two trimmed column scans |
| LegacyRules.QueenRows | pieces/queen.py:56-57 | the two trimmed row scans |
| LegacyRules.PawnLegalMoves | pieces/pawn.py:41-113 | the pawn's list is `PawnMoves`, shown by name when asked |
| LegacyRules.CalculateLegalMoves | pieces/piece.py:335-349 | dispatch on the kind: the rook's, queen's and pawn's own lists; a king has no moves (pieces/king.py:31-35); the knight's and bishop's methods take no keyword, so asking them with one is a TypeError (pieces/knight.py:31-32, pieces/bishop.py:31-32) |
| LegacyRules.GetLegalMoves | board/board.py:242-258 | the lists of the colour's pieces in dictionary order, or the first error raised |
| LegacyRules.GroupLegalMoves | board/board.py:252-256 | the inner loop over one list |
| LegacyRules.GroupResults | board/board.py:250-256 | one result per list of the dictionary |
| LegacyRules.FlattenGathered | board/board.py:248-258 | gathering list by list gives the same as gathering piece by piece |
| LegacyRules.LegalOfAllAppend | board/board.py:252-256 | the result for two runs of pieces is the first's, then the second's, unless the first fails |
| LegacyRules.NewBoardLegalMoves | board/board.py:11-24 | asking a new board for either colour's legal moves raises a TypeError |
| LegacyRules.MoveToAsWritten | pieces/piece.py:109-165 | as written `move_to` never succeeds: pawns and knights have no such method, a first-moving rook or king reads the missing `castleling_rights`, and the tuple target never matches a listed square |
| LegacyRules.Relocated | pieces/piece.py:153-159 | the board after `update_board` as intended: the piece stands on its new square, its old square is emptied, every other square is unchanged |
| LegacyRules.MoveTo | pieces/piece.py:109-165 | the evident intent: the move happens exactly when the target is among the piece's moves; the piece then stands there with its first move spent, and otherwise nothing changes |
| LegacyRules.Place | pieces/piece.py:153-162 | the board and the piece are updated for the move |
| LegacyRules.RelocatedConsistent | pieces/piece.py:153-160 | moving a piece keeps every piece's position in step with the grid |
| LegacyGame.Logged | game/game.py:303-323 | after a move the turn passes to the other colour, the move joins the list of the current turn (created when missing), other turns' lists are untouched, and the turn number grows exactly when White is next |
| LegacyGame.ReplayPairs | game/game.py:84-98 | playing n moves from a new game gives the log the class comment describes: turn k holds the (2k-1)-th and 2k-th moves, White is next after an even count, and the turn number is n/2 + 1 |
| LegacyGame.LogPairs | game/game.py:303-323 | one more move extends that log by the move, on the right turn |
| LegacyGame.PairedWhite | game/game.py:316-320 | a White move opens a new turn holding just that move |
| LegacyGame.PairedBlack | game/game.py:316-320 | a Black move is appended to the turn White opened |
| LegacyGame.RequestOf | game/game.py:123-128 | the request carries the decoded kind, file, square and castling fields of the move; the legacy decoder never names a row |
| LegacyGame.Pick | game/game.py:252-277 | an index it picks is one of the pieces |
| LegacyGame.PickFirst | game/game.py:252-277 | the loop stops at the first piece that passes the file and row filters and lists the target among its moves |
| LegacyGame.PickSound | game/game.py:252-277 | the piece chosen passes the filters and lists the target, and every piece before it was skipped |
| LegacyGame.PickNone | game/game.py:277 | when every piece is skipped the result is a ValueError |
| LegacyGame.Positions | game/game.py:252-266 | the squares the filters read, one per piece in order |
| LegacyGame.Game.constructor | game/game.py:79-101 | a new game has a set-up board in the starting position, no moves, White to move, turn 1, and no pawn to take en passant |
| LegacyGame.Game.ManageGameState | game/game.py:303-326 | the log becomes `Logged` of the old log and the move; the en-passant pawns are unchanged |
| LegacyGame.Game.CleanEnPassantState | game/game.py:147-171 | the mover's tracked pawn, if any, loses its en-passant flag and is no longer tracked; the other side's pawn and the log are unchanged |
| LegacyGame.Game.ManageEnPassantPawns | game/game.py:173-201 | after clearing the mover's pawn, a pawn on its first move whose target ends in 4 or 5 becomes the mover's tracked pawn and may be taken en passant; an empty target is an IndexError; the piece's square and story are unchanged |
| LegacyGame.Game.GetMovablePiece | game/game.py:221-277 | the piece chosen is `Movable`: the first that passes the filters and names the target, the first error of a piece asked for its moves, or a ValueError |
| LegacyGame.Game.MovePiece | game/game.py:103-145 | with the attributes it reads given their meaning: a move that succeeds decodes and is logged by `Logged`; a move that fails leaves the log as it was |
| LegacyGame.Game.MoveRequest | game/game.py:125-145 | a missing kind list is a KeyError; otherwise the piece found by `GetMovablePiece` plays the move, and the log changes only when it succeeds |
| LegacyGame.Game.Play | game/game.py:133-145 | the en-passant bookkeeping, then the move; the log changes only when it succeeds |
| LegacyGame.Game.Advance | game/game.py:135-145 | castling is an AttributeError (the legacy pieces have no `castle`); otherwise the move, the story and the log, the log changing only on success |
| LegacyGame.Game.RecordStory | game/game.py:139-142 | the piece's story gains the (current turn, square reached) record |
| LegacyGame.Game.MovePieceTo | game/game.py:299-301 | `move_to` with the square's name; a refusal is a ValueError; the log is untouched and the piece stays on the board |
| LegacyGame.MovePieceAsWritten | game/game.py:123-128 | as written every move fails: a move that does not decode gives the decoder's error, and any other reads `piece_name` off a `PieceMove` that has none, an AttributeError |
| LegacyMove.Abbreviate | game/piece_move.py:88 | the abbreviation has no 'x' and no '+', is never longer than the move, and keeps every other character the move has |
| LegacyMove.AbbreviateKeepsPlainMoves | game/piece_move.py:88 | a move without capture or check marks is its own abbreviation |
| LegacyMove.AbbreviateAppend | game/piece_move.py:88 | stripping the marks works piece by piece: the abbreviation of a concatenation is the concatenation of the abbreviations |
| LegacyMove.AbbreviateIdempotent | game/piece_move.py:88 | stripping twice is stripping once |
| LegacyMove.LastTwo | game/piece_move.py:183 | `_abr_move[-2:]`: the last two characters, or the whole text when it is shorter |
| LegacyMove.FileOf | game/piece_move.py:184-186 | a file is read exactly when the abbreviation has four characters and its second is a file letter, and it is that letter |
| LegacyMove.SetPieceResult | game/piece_move.py:91-140 | an empty abbreviation is an IndexError; otherwise a ValueError exactly when it is neither a two-character pawn move (when pawns are looked for), nor castling, nor led by a piece letter; castling names the king, a piece letter names its kind and wins over the earlier guesses |
| LegacyMove.Parse | game/piece_move.py:62-217 | the decoded move keeps the abbreviation and its last two characters as the square; a two-character move decodes exactly when it starts with a file letter, as a pawn move from that file; any other decodes exactly when `set_piece` succeeds, with its kind and `FileOf` as the file |
| LegacyMove.SideOf | game/piece_move.py:155-161 | a castling side is set exactly for "O-O" and "O-O-O" |
| LegacyMove.PawnMoveDecoded | game/piece_move.py:200-210 | "e4" decodes as a pawn move from file e to e4 |
| LegacyMove.TwoCharactersNeedAFile | game/piece_move.py:204-205 | a two-character move that does not start with a file letter is a ValueError |
| LegacyMove.AbbreviateMark | game/piece_move.py:88 | a piece letter followed by 'x' abbreviates to the letter |
| LegacyMove.PieceMoveDecoded | game/piece_move.py:212-217 | "Nf3" and the like decode as a move of that kind to that square, with no file |
| LegacyMove.DisambiguatedMoveDecoded | game/piece_move.py:184-186 | "Nbd2" and the like decode with the file of the moving piece |
| LegacyMove.CaptureMarkIgnored | game/piece_move.py:88 | "Nxf3" decodes exactly as "Nf3" |
| LegacyMove.SameAbbreviationSameParse | game/piece_move.py:88-89 | outside castling, decoding depends on the abbreviation alone |
| LegacyMove.PawnCaptureRefused | game/piece_move.py:128-138 | a pawn capture such as "exd5" is a ValueError, since its first letter is no piece letter |
| LegacyMove.UnknownLetterRefused | game/piece_move.py:137-138 | a move led by no piece letter, such as "jkn", is a ValueError |
| LegacyMove.CastlingSquareLost | game/piece_move.py:177-183 | as written the castling square is overwritten by the last two characters: "O-O" and "O-O-O" decode with the square "-O" |
| LegacyMove.FixedCastlingSquare | game/piece_move.py:142-161 | with the fix, castling moves the king to g1/g8 on the king side and c1/c8 on the queen side |
| LegacyMove.FixedAgreesOffCastling | game/piece_move.py:163-186 | the fix changes nothing but castling |
| LegacyMove.PieceMove.constructor | game/piece_move.py:78-88 | the move and turn are stored, nothing is decoded yet, and the abbreviation is the move without its marks |
| LegacyMove.PieceMove.New | game/piece_move.py:62-89 | a `PieceMove` is built exactly when the move decodes, with the fields `Parse` gives; otherwise the decoder's error |
| LegacyMove.PieceMove.SetMoveInformation | game/piece_move.py:188-217 | succeeds exactly when `Parse` does, the fields then describing its result; otherwise its error |
| LegacyMove.PieceMove.SetPiece | game/piece_move.py:91-140 | succeeds exactly when `SetPieceResult` does, setting the kind, its letter and the castling flag from it |
| LegacyMove.PieceMove.GetCastlingSquare | game/piece_move.py:142-161 | a square exactly when the move is castling text, the king's destination for that side and colour, and the castling side is set with it; no other field changes |
| LegacyMove.PieceMove.SetSquareAndPos | game/piece_move.py:163-186 | the square is the last two characters of the abbreviation, the file is `FileOf`; the castling side is set exactly for castling text; the decoded kind and flags are unchanged |
| Python.PyIndex | selene_chess_bot/board/board.py:452-482 | a Python index into a list of length n is valid exactly when -n <= i < n, and a negative one counts from the end |
| Python.RemoveFirst | selene_chess_bot/board/board.py:690 | `list.remove` raises ValueError exactly when the item is absent; otherwise one fewer item and the multiset loses exactly one copy of it |
| Python.Reverse | selene_chess_bot/board/board.py:812-814 | `list.reverse`: same length, item i is the old item n-1-i |
| Python.DigitChar | selene_chess_bot/game/game.py:291-295 | a digit below ten is written as a digit character that reads back as it |
| Python.Lower | selene_chess_bot/board/board.py:845 | `str.lower` turns an upper-case letter into the lower-case letter whose upper case it is, and leaves every other character alone |
| Python.UpperString | selene_chess_bot/board/board.py:898 | `str.upper` applies the letter conversion character by character, keeping the length |
| Python.LowerString | selene_chess_bot/board/board.py:845 | `str.lower` applies the letter conversion character by character, keeping the length |
| Python.RemoveChar | selene_chess_bot/game/piece_move.py:292 | `str.replace(c, '')` leaves no c, never lengthens, keeps a text without c, and keeps every other character present |
| Python.RemoveCharAppend | selene_chess_bot/game/piece_move.py:292 | removing a character works piece by piece over a concatenation |
| Python.Find | selene_chess_bot/pgn/pgn.py:97 | the index of the first occurrence of the separator |
| Python.Split | selene_chess_bot/pgn/pgn.py:97 | `str.split(c)` yields at least one part and no part contains c |
| Python.SplitJoin | selene_chess_bot/game/game.py:347 | joining the parts of `split(c)` with c gives back the text |
| Python.JoinSplit | selene_chess_bot/game/game.py:300 | splitting `c.join(parts)` by c gives back the parts when none contains c |
| Python.StripLeft | selene_chess_bot/game/game.py:304 | the left strip is a suffix of the text that does not start with white space |
| Python.StripRight | selene_chess_bot/game/game.py:304 | the right strip is a prefix of the text that does not end with white space |
| Python.TokenLength | selene_chess_bot/game/game.py:337 | the length of the leading token: no white space in it, and white space right after it |
| Python.StripOfToken | selene_chess_bot/game/game.py:303-304 | stripping a token without white space, or one led by a blank, gives the token |
| Python.SplitWhitespaceJoin | selene_chess_bot/game/game.py:337 | `str.split()` of non-empty blank-free tokens joined by blanks gives back the tokens |
| Python.NatToString | selene_chess_bot/game/game.py:291-295 | `str` of a natural number is a non-empty string of digits, one digit below ten |
| Python.DigitsOfNat | selene_chess_bot/game/game.py:291-295 | the digits `str` writes read back as the number |
| Python.ParseInt | selene_chess_bot/game/game.py:342-343 | `int` of a malformed text is a ValueError |
| Python.ParseIntToString | selene_chess_bot/game/game.py:342-343 | `int(str(n)) == n` for every integer |
| Python.ParseNat | selene_chess_bot/game/game.py:342-343 | `int` reads back any natural number `str` writes |
| Python.ParseNegative | selene_chess_bot/game/game.py:342-343 | `int` reads back a minus sign followed by a written natural number as its negation |
| Python.ParseNegativeString | selene_chess_bot/game/game.py:342-343 | `int(str(n)) == n` for negative n |
| Python.ParseSigned | selene_chess_bot/game/game.py:342-343 | a stripped text of a minus sign and digits reads as the negated digit value |
| Python.ParseUnsigned | selene_chess_bot/game/game.py:342-343 | a stripped text of digits reads as its digit value |

## Left out

- Strings are ASCII throughout. `str.isspace`, `upper` and `lower` are modelled on ASCII characters only, and there is no Unicode normalisation or case folding.
- Python.ParseInt: reads an optional sign and ASCII decimal digits between white space. The Unicode digits and `_` separators that Python's `int` also accepts are not modelled. Its own contract states only the error kind. What it reads is stated by `ParseIntToString`, `ParseSigned` and `ParseUnsigned`.
- Python.DigitValue: only the ASCII digits '0' to '9' count as digits. Python's `str.isdigit` and `int` accept other Unicode digits too.
- SearchGraph.GameStateNode.Backpropagate: the float `total_value` it accumulates is not modelled. Only the visit counts are. `get_ucb`, `select`, `get_random_move`, `expand`, `simulate` and the rest of the randomised Monte Carlo search (alpha_zero/mcts.py, mcst.py, alpha_zero.py, neural_network.py, tree.py) are left out, because they rest on floats, randomness and numpy/TensorFlow.
- SearchGraph.FirstParent: `next(iter(node.parents), None)` takes whichever parent Python's set yields first, which depends on hashes and object ids. The model keeps the parents in insertion order and takes the first one inserted. So `Backpropagate` walks one fixed chain, where Python may walk another chain of first parents.
- Checkpoints.LinkParents: rebuilds each node's `parents` set in the order of the record's list. Python's set keeps no order.
- LegalMoves.Common: `list(set(a) & set(b))` returns the common moves in the order of Python's set. The model lists them in their order of first appearance in `a`. Only membership is meaningful.
- KingRules: the squares the other side attacks come from the board's cached `get_attacked_squares`. Here they are a list parameter, given separately for the king's own square and for the castling path. The cache and its invalidation flags are not modelled.
- Default and `None` arguments: each method takes the arguments that the call sites in the core pass. A keyword left at its default is a plain parameter set to that default. `None` is an `Option` where the code tests for it.
  - Example: `add_piece` with `row=None, column=None` and an algebraic name is modelled through the name.
- StateTable.NewState: `state_manager.py:17` calls `GameStateNode(board_hash, player_turn)`, but the constructor at node.py:93-102 takes seven parameters, four of them required. That call raises a TypeError. `NewState` is the get-or-create table's evident intent: a fresh node for the hash and the side to move, with no visits, links or explored moves.
- SearchGraph.GameStateNode.AddExploredMove: takes the move string. node.py:310 passes the new node, while node.py:274 compares move strings against `explored_moves`. The model follows the comparison.
- Board rendering: `get_board_representation` is modelled without its `use_colors` ANSI colouring, which only wraps cells in escape codes. `print_board`, `print_attacked_squares`, `visualize_encoded_board`'s printing, `PieceMove.__str__`, `Game.start` and `print_game_state` are console output and are left out.
- Checkpoints.Checkpoint.LoadCheckpoint: reading the file with `dill.load` is not modelled; the record list is the file's content. `save_checkpoint`'s `dill.dump` and the commented-out pickle variant are left out as file I/O.
- Zobrist: the key values come from Python's `random` after `random.seed(42)`. They are a stream of 64-bit values given as a parameter. Every property holds for any stream.
- Chess legality: `_check_legal_moves_when_king_is_in_check`, the recursion of `_find_force_checkmate` over real positions, `get_next_states`, and playing a move on a real position are all an oracle. The forced-mate search, the check filter and the movetext reader take it as a parameter.
- GameState.Game: the board is abstract. The position hash and the facts about the board that the bookkeeping reads (captures, pawn moves, checkmate, material) are given to each move.
- FenGame.GameFromFen: a corner whose castling flag is set and which holds a piece gets that rook side. A set flag on an empty corner is an AttributeError. The rook side is recorded on the start value, not written into a piece object. The start hash is a parameter: its value is not computed from the board, but its en-passant lookup is, so the rank-indexed KeyError of `compute_game_state_hash` (selene_chess_bot/game/game.py:481-484) is returned (`StartHashError`).
- FenGame.SetEnPassantPawn: the accepted target is kept on the start value as its square name. The model does not set `can_be_captured_en_passant` on the piece or fill `white_possible_pawn_enp`/`black_possible_pawn_enp`.
- LegacyGame.Game.MovePiece: its contract covers the decoding and the move log. The choice of the moving piece and its move are stated by `GetMovablePiece` and `LegacyRules.MoveTo`, which it calls.
- LegacyGame: the legacy game controller has no castling and no promotion (`castle`, `coronate`). The legacy source does not implement them, so there is nothing to model.
- LegacyBoard: the legacy `pieces/piece.py` imports `convert_from_algebraic_notation`, which `core/utilities.py` does not define, and `RookSide`, which `pieces/utilites.py` does not define (pieces/piece.py:4-8); `game/piece_move.py:1` imports `RookSide` too. Importing either raises ImportError, so no legacy board or game can exist. The model treats both modules as importable.
- LegacyBoard.Board.constructor: treats `Bishop`, `Rook`, `Queen` and `King` as instantiable. In Python they subclass the abstract `pieces/piece.py` `Piece` without defining `get_attacked_squares` (pieces/piece.py:351-360), so `_create_piece` (board/board.py:287-307) raises TypeError at the first of them, and `Board()` never returns. The promised starting position is what the code would build if those classes were concrete.
- LegacyBoard.Board.AddPiece: treats `Bishop`, `Rook`, `Queen` and `King` as instantiable. In Python they subclass the abstract `pieces/piece.py` `Piece` without defining `get_attacked_squares` (pieces/piece.py:351-360), so `_create_piece` (board/board.py:287-307) raises TypeError at the first of them. The model adds a new bishop, rook, queen or king as it adds a knight or pawn.
- LegacyBoard.Board.PlaceOne: treats `Bishop`, `Rook`, `Queen` and `King` as instantiable. In Python they subclass the abstract `pieces/piece.py` `Piece` without defining `get_attacked_squares` (pieces/piece.py:351-360), so `_create_piece` (board/board.py:287-307) raises TypeError at the first of them. The model places those pieces like the others.
- LegacyBoard.Board.CreateInitialKindSetUp: treats `Bishop`, `Rook`, `Queen` and `King` as instantiable. In Python they subclass the abstract `pieces/piece.py` `Piece` without defining `get_attacked_squares` (pieces/piece.py:351-360), so `_create_piece` (board/board.py:287-307) raises TypeError at the first of them. The bishop, rook, queen and king helpers never finish in Python.
- LegacyBoard.Board.PlaceKindRows: treats `Bishop`, `Rook`, `Queen` and `King` as instantiable. In Python they subclass the abstract `pieces/piece.py` `Piece` without defining `get_attacked_squares` (pieces/piece.py:351-360), so `_create_piece` (board/board.py:287-307) raises TypeError at the first of them. The appends for those kinds are never reached in Python.
- LegacyBoard.Board.CreateInitialBoardSetUp: treats `Bishop`, `Rook`, `Queen` and `King` as instantiable. In Python they subclass the abstract `pieces/piece.py` `Piece` without defining `get_attacked_squares` (pieces/piece.py:351-360), so `_create_piece` (board/board.py:287-307) raises TypeError at the first of them. In Python the set-up stops with TypeError after the pawns and knights; the model completes it.
- LegacyBoard.Board.FirstHelpers: treats `Bishop`, `Rook`, `Queen` and `King` as instantiable. In Python they subclass the abstract `pieces/piece.py` `Piece` without defining `get_attacked_squares` (pieces/piece.py:351-360), so `_create_piece` (board/board.py:287-307) raises TypeError at the first of them. In Python the bishop helper raises TypeError; the model completes the third stage.
- LegacyBoard.Board.LastHelpers: treats `Bishop`, `Rook`, `Queen` and `King` as instantiable. In Python they subclass the abstract `pieces/piece.py` `Piece` without defining `get_attacked_squares` (pieces/piece.py:351-360), so `_create_piece` (board/board.py:287-307) raises TypeError at the first of them. No Python call reaches these helpers; the model runs them.
- LegacyGame.Game.constructor: treats `Bishop`, `Rook`, `Queen` and `King` as instantiable. In Python they subclass the abstract `pieces/piece.py` `Piece` without defining `get_attacked_squares` (pieces/piece.py:351-360), so `_create_piece` (board/board.py:287-307) raises TypeError at the first of them, so the `Board()` the constructor builds never returns. The model starts a game on the completed set-up. The rules for those four kinds (in LegacyRules) cover code no Python instance reaches.
- LegacyGame.Game.RecordStory: `move_piece` passes `piece_move.square`, a square name such as "e4", to `add_move_to_story` (game/game.py:139-142). The model records the piece's `(row, column)` position instead of the name.
- The legacy stubs `pieces/king.py`, `pieces/knight.py` and `pieces/bishop.py` give no moves. `LegacyRules.CalculateLegalMoves` models them as such.
- Django management commands, models, signals, the Excel/Word converters, `core/saver.py`, `alpha_zero/serializer.py`, `core/algo.py`, the debuggers and `main.py` are I/O or console code, and are not part of this model.

## Findings

| source | as written | input that shows it | evidently intended | confidence | as-written member | corrected member |
|---|---|---|---|---|---|---|
| selene_chess_bot/game/game.py:1135-1158 | the fifty-move rule is checked before checkmate, so a mate on the hundredth quiet half-move is recorded as a draw | a quiet mating move with `moves_for_f_rule` at 99 | checkmate ends the game as a win whatever the half-move clock | not executed | GameState.MateOnHundredthHalfMove | GameState.TerminateFixed, GameState.MateStands |
| selene_chess_bot/game/game.py:105 | the initial position is never entered in `board_states`, so its third occurrence counts only two | Nf3 Nf6 Ng1 Ng8 Nf3 Nf6 Ng1 Ng8 from the start | the starting position counts once before any move | not executed | GameState.KnightShuffleMissed | GameState.NewBookFixed |
| selene_chess_bot/pieces/king.py:66-108 | `castle` moves the rook with `move_to`, which asks for the rook's legal moves, and the rook's move generator raises TypeError (next row), so every possible castling ends in that error before the king moves | white king on e1, rook on h1, f1 and g1 empty and unattacked, king-side right set | the king moves two files and the rook lands next to it | not executed | Moving.Castle | Moving.CastleFixed |
| selene_chess_bot/pieces/rook.py:36-103 | `scan_column`/`scan_row` are passed `get_in_algebraic_notation`, which they do not take, so every call raises TypeError | any rook on any board | the rook's moves along its column and row | not executed | RookRules.CalculateRookMoves | RookRules.RookLegalMoves |
| selene_chess_bot/pieces/king.py:166-172 | each move is named by `convert_to_algebraic_notation(*move, king_color=..., can_castle=...)`, which takes no such keywords, so asking for names raises TypeError once there is a move | a king on e1 of an empty board, names asked for | one algebraic name per move | not executed | KingRules.CalculateKingMoves | KingRules.KingMovesFixed, KingRules.KingMovesNamed |
| selene_chess_bot/pieces/king.py:185-240 | castling is allowed while the king is in check, and queen-side castling is refused when the b-file square next to the rook is attacked | a king in check with a clear path; an enemy attack on b1 only | Article 3.8.2 of the FIDE Laws: not out of check; only the king's own square and the squares it crosses or lands on must be safe | not executed | KingRules.CastlingIgnoresCheck, KingRules.QueensideNeedsRookNeighbourSafe | KingRules.FideCastlingSafe |
| selene_chess_bot/pieces/pawn.py:221-222 | the capture-with-promotion search returns after the left capture, so the right capture on the last rank is never listed | a white pawn on b7 with black pieces on a8 and c8 | both captures, each with its four promotions | not executed | PawnRules.PromotionCaptureHidesRight | PawnRules.BothSidesComplete |
| selene_chess_bot/pieces/piece.py:960-968 | popping from the list inside `enumerate` skips the entry after the popped one | two own pieces side by side in the list | every own piece is dropped and every enemy piece becomes its position | not executed | Scans.SweepSkipsAfterPop | Scans.TrimAllLeavesSquares |
| selene_chess_bot/game/enconder.py:141 | the en-passant key is indexed by the rank digit `int(en_passant_pos[1])`, so the file is lost | the same position with en-passant square d3 and with e3 | a key per en-passant file, so the two positions hash differently | not executed | Zobrist.ComputeGameStateHashAsWritten, Zobrist.EnPassantRankCollision | Zobrist.ComputeGameStateHash (the member named after `compute_game_state_hash` models the file-indexed fix) |
| selene_chess_bot/pgn/pgn.py:83-188 | `convert_dict_to_pgn` writes `1. e4 e5 `, and reading a turn with `split(' ')` takes the empty string before `e4` as White's move, which raises IndexError | `{1: ['e4', 'e5']}` written out and read back | the written movetext reads back as the same moves | not executed | Movetext.WrittenTextRaises | Movetext.ReadsBack |
| selene_chess_bot/game/checkmate_detector/checkmate_detector.py:292-319 | `all([])` is true, so a defender with no legal reply counts as mated even when stalemated | a position after a move of the mating side where the defender has no legal reply and the game is not won (a stalemate) | no reply and not in check is no mate | not executed; the search tries only checks for the mating side, so in play this needs a position the game does not mark as won | MateSearch.StalemateCountsAsMate | MateSearch.StalemateIsNoMate, MateSearch.FixedMatesAreForced |
| selene_chess_bot/game/game.py:384-390 | the `Game` constructor passes `castling_rights` to `Board`, whose constructor (selene_chess_bot/board/board.py:130-134) takes no such argument, so every parsed record ends in TypeError | the initial FEN | a game on the record's board with its rights, side to move and counters | not executed | FenGame.GameFromFenAsWritten | FenGame.GameFromFen |
| selene_chess_bot/alpha_zero/checkpoint.py:34-36 | each record reads `node.move`, which a search node does not have | any root | one record per node, breadth first | not executed | Checkpoints.FlattenTreeAsWritten | Checkpoints.FlattenTree |
| selene_chess_bot/alpha_zero/checkpoint.py:68-88 | `GameStateNode(**node_data)` passes the keys `move`, `parents` and `children`, which the constructor does not take | any non-empty record list | one node per record, relinked by hash | not executed | Checkpoints.Checkpoint.LoadCheckpointAsWritten | Checkpoints.Checkpoint.LoadCheckpoint |
| board/board.py:58 | the coordinates are read as truth values, so row 0 or column 0 reads as missing | the position (0, 4) | both coordinates given and in 0..7 | not executed | LegacyBoard.ZeroRefused | LegacyBoard.IsPositionOnBoardFixed |
| pieces/piece.py:109-165 | `move_to` reads `board.castleling_rights` and calls `board.update_board`, neither of which the legacy board has, and compares a tuple target with list entries | a rook's first move to a free square | the piece moves when the target is one of its moves | not executed | LegacyRules.MoveToAsWritten | LegacyRules.MoveTo |
| game/game.py:123-128 | `move_piece` reads `piece_name` off a `PieceMove` that has no such attribute, so every decoded move raises AttributeError | "e4" from the start | the move is made and logged | not executed | LegacyGame.MovePieceAsWritten | LegacyGame.Game.MovePiece |
| game/piece_move.py:177-183 | the castling square is overwritten by the last two characters | "O-O" | the king's castling square, g1 or g8 | not executed | LegacyMove.CastlingSquareLost | LegacyMove.FixedCastlingSquare |
