/**
 * `Game.parse_fen` (selene_chess_bot/game/game.py): a game set up from a FEN
 * record. The six fields are read exactly as `GameEncoder.parse_fen` reads
 * them; the game then starts on that board, with the side to move, the
 * full-move number as its turn counter and the half-move clock as its
 * fifty-move counter, and every corner whose castling flag is set has its
 * piece tagged with that rook side.
 *
 * As written, the `Game` constructor hands `castling_rights` to a `Board`
 * constructor that has no such parameter, so `parse_fen` ends in a TypeError
 * once the fields are read; `GameFromFenAsWritten` keeps that, and
 * `GameFromFen` is the set-up the method describes.
 */
module FenGame {
  import opened Python
  import opened Notation
  import Fen
  import GameState
  import ChessBoard
  import Zobrist

  /** The game `parse_fen` sets up: its bookkeeping, the board rows it was given, its castling flags and en-passant square. */
  datatype Start = Start(book: GameState.Book, setup: Fen.Grid, rights: CastlingRights, enPassant: Option<string>)

  /** The square `parse_fen` looks at for a colour's rook on one side. */
  function Corner(c: Color, side: RookSide): (int, int)
  {
    (if c == White then 0 else 7, if side == KingSide then 7 else 0)
  }

  /** The cell the board shows at a corner once `_setup_board` has read `setup`. */
  function CornerCell(setup: Fen.Grid, c: Color, side: RookSide): Cell
  {
    var (row, column) := Corner(c, side);
    ChessBoard.SetupAt(setup, row, column)
  }

  /** Every corner with its flag set holds a piece that can take the `rook_side` tag. */
  predicate CornersManned(setup: Fen.Grid, rights: CastlingRights)
  {
    forall c: Color, side: RookSide :: rights.Get(c, side) ==> CornerCell(setup, c, side).Occ?
  }

  // ------------------------------------------------- the set-up's errors

  /** The error of the first cell `_setup_board` refuses in row `i` from column `j` on. */
  function RowErrorFrom(i: nat, row: seq<string>, j: nat): (e: Option<Error>)
    requires j <= |row|
    ensures e.None? <==> forall c :: j <= c < |row| ==> row[c] != "." ==> ChessBoard.SetupCell(row[c]).Ok? && OnBoard(i, c)
    ensures e.Some? ==> e.value == ValueError || e.value == IndexError
    decreases |row| - j
  {
    if j == |row| then None
    else
      var cell := ChessBoard.SetupCell(row[j]);
      if row[j] != "." && cell.Err? then
        Some(cell.error)
      else if row[j] != "." && !OnBoard(i, j) then Some(IndexError)
      else
        var rest := RowErrorFrom(i, row, j + 1);
        assert row[j] != "." ==> cell.Ok? && OnBoard(i, j);
        rest
  }

  /** The error of the first row `_setup_board` refuses from row `i` on. */
  function SetupErrorFrom(setup: Fen.Grid, i: nat): (e: Option<Error>)
    requires i <= |setup|
    ensures e.None? <==> forall k :: i <= k < |setup| ==> ChessBoard.RowOk(k, setup[k])
    decreases |setup| - i
  {
    if i == |setup| then None
    else
      var here := RowErrorFrom(i, setup[i], 0);
      if here.Some? then here else SetupErrorFrom(setup, i + 1)
  }

  /** `_setup_board` refuses a set-up exactly when it holds a cell naming no piece or lying off the board. */
  lemma SetupErrorExact(setup: Fen.Grid)
    ensures SetupErrorFrom(setup, 0).None? <==> ChessBoard.SetupOk(setup)
  {
    assert forall k :: 0 <= k < |setup| ==> (ChessBoard.RowOk(k, setup[k]) <==> RowErrorFrom(k, setup[k], 0).None?);
  }

  // ------------------------------------------------ the en-passant square

  /**
   * `_set_en_passant_pawn`: the target is converted with
   * `convert_from_algebraic_notation`, the square looked up with Python
   * indexing, and `can_be_captured_en_passant` set on what stands there.
   * The coordinates of an empty square take no attribute: an AttributeError.
   */
  function SetEnPassantPawn(setup: Fen.Grid, target: string): (e: Option<Error>)
    ensures e.Some? ==> e.value in {IndexError, ValueError, AttributeError}
    ensures |target| < 2 ==> e == Some(IndexError)
    ensures |target| >= 2 && !IsDigit(target[1]) ==> e == Some(ValueError)
    ensures IsSquareName(target) ==>
              (e.None? <==> ChessBoard.SetupAt(setup, target[1] as int - '1' as int, target[0] as int - 'a' as int).Occ?)
  {
    SquareNameIndexes(target);
    match FromAlgebraic(target)
    case Err(err) => Some(err)
    case Ok((row, column)) =>
      match (PyIndex(row, 8), PyIndex(column, 8))
      case (Some(i), Some(j)) => if ChessBoard.SetupAt(setup, i, j).Occ? then None else Some(AttributeError)
      case _ => Some(IndexError)
  }

  /** A square name converts to coordinates that Python indexing keeps as they are. */
  lemma SquareNameIndexes(t: string)
    ensures IsSquareName(t) ==>
              var row, column := t[1] as int - '1' as int, t[0] as int - 'a' as int;
              FromAlgebraic(t) == Ok((row, column)) && PyIndex(row, 8) == Some(row) && PyIndex(column, 8) == Some(column)
  {
  }

  /**
   * `_initialize_en_passant_pawns`: no target (the record's "-") and the
   * empty string, which Python treats as false, leave every pawn alone;
   * any other target goes to `_set_en_passant_pawn`.
   */
  function EnPassantError(setup: Fen.Grid, target: Option<string>): (e: Option<Error>)
    ensures target.None? || target.value == "" ==> e.None?
    ensures target.Some? && target.value != "" ==> e == SetEnPassantPawn(setup, target.value)
  {
    if target.None? || target.value == "" then None else SetEnPassantPawn(setup, target.value)
  }

  /**
   * The en-passant term of `compute_game_state_hash`, which `Game.__init__`
   * calls after the pawns are flagged: a target that is not `None` is looked
   * up by `int(en_passant_pos[1])` in a table keyed 0..7, so reading it can
   * fail. A square name fails exactly on rank 8, with a KeyError.
   */
  function StartHashError(target: Option<string>): (e: Option<Error>)
    ensures target.None? ==> e.None?
    ensures target.Some? ==> (e.None? <==> Zobrist.EnPassantIndexAsWritten(target.value).Ok?)
    ensures e.Some? ==> e.value in {IndexError, ValueError, KeyError}
    ensures target.Some? && IsSquareName(target.value) ==>
              (e.None? <==> target.value[1] != '8') && (e.Some? ==> e.value == KeyError)
  {
    if target.None? then None
    else match Zobrist.EnPassantIndexAsWritten(target.value)
      case Err(err) => Some(err)
      case Ok(_) => None
  }

  // ------------------------------------------------------------ parse_fen

  /**
   * The corrected `parse_fen`: the fields are read, the board is set up from
   * the rows (an unknown piece or an off-board square is refused), the piece
   * on the en-passant square is flagged (`EnPassantError`), the start hash
   * reads the en-passant key (`StartHashError`), and the piece on
   * each corner whose flag is set is tagged with its rook side; an empty
   * corner is a tuple with no `rook_side`, an AttributeError. `hash` is the
   * Zobrist hash the board computes for the starting position.
   */
  function GameFromFen(fen: string, reversePiecePlacement: bool, hash: GameState.BoardHash): (r: Result<Start>)
    ensures Fen.ParseFenSpec(fen, reversePiecePlacement).Err? ==> r == Err(Fen.ParseFenSpec(fen, reversePiecePlacement).error)
    ensures r.Ok? <==> Fen.ParseFenSpec(fen, reversePiecePlacement).Ok?
                       && ChessBoard.SetupOk(Fen.ParseFenSpec(fen, reversePiecePlacement).value.board)
                       && EnPassantError(Fen.ParseFenSpec(fen, reversePiecePlacement).value.board,
                                         Fen.ParseFenSpec(fen, reversePiecePlacement).value.enPassantTarget).None?
                       && StartHashError(Fen.ParseFenSpec(fen, reversePiecePlacement).value.enPassantTarget).None?
                       && CornersManned(Fen.ParseFenSpec(fen, reversePiecePlacement).value.board,
                                        Fen.ParseFenSpec(fen, reversePiecePlacement).value.castlingRights)
    ensures var info := Fen.ParseFenSpec(fen, reversePiecePlacement);
            info.Ok? && ChessBoard.SetupOk(info.value.board) && EnPassantError(info.value.board, info.value.enPassantTarget).Some? ==>
              r == Err(EnPassantError(info.value.board, info.value.enPassantTarget).value)
    ensures var info := Fen.ParseFenSpec(fen, reversePiecePlacement);
            info.Ok? && ChessBoard.SetupOk(info.value.board) && EnPassantError(info.value.board, info.value.enPassantTarget).None?
            && StartHashError(info.value.enPassantTarget).Some? ==>
              r == Err(StartHashError(info.value.enPassantTarget).value)
    ensures (r.Err? && Fen.ParseFenSpec(fen, reversePiecePlacement).Ok?
             && ChessBoard.SetupOk(Fen.ParseFenSpec(fen, reversePiecePlacement).value.board)) ==>
              r.error in {IndexError, ValueError, AttributeError, KeyError}
    ensures r.Ok? ==> var info := Fen.ParseFenSpec(fen, reversePiecePlacement).value;
                      r.value.book.currentTurn == info.fullmoveNumber && r.value.book.movesForFRule == info.halfmoveClock
                      && r.value.book.playerTurn == info.activeColor && r.value.book.moves == map[]
                      && !r.value.book.terminated && r.value.book.boardStates == map[]
                      && r.value.setup == info.board && r.value.rights == info.castlingRights
                      && r.value.enPassant == info.enPassantTarget
  {
    match Fen.ParseFenSpec(fen, reversePiecePlacement)
    case Err(e) => Err(e)
    case Ok(info) =>
      SetupErrorExact(info.board);
      var refused := SetupErrorFrom(info.board, 0);
      if refused.Some? then Err(refused.value)
      else if EnPassantError(info.board, info.enPassantTarget).Some? then Err(EnPassantError(info.board, info.enPassantTarget).value)
      else if StartHashError(info.enPassantTarget).Some? then Err(StartHashError(info.enPassantTarget).value)
      else if !CornersManned(info.board, info.castlingRights) then Err(AttributeError)
      else
        var book := GameState.NewBook(info.fullmoveNumber, info.activeColor, hash);
        Ok(Start(book.(movesForFRule := info.halfmoveClock), info.board, info.castlingRights, info.enPassantTarget))
  }

  /** `parse_fen` as written: the `Game` it builds cannot build its `Board`. */
  function GameFromFenAsWritten(fen: string, reversePiecePlacement: bool): (r: Result<Start>)
    ensures r.Err?
    ensures Fen.ParseFenSpec(fen, reversePiecePlacement).Err? ==> r.error == Fen.ParseFenSpec(fen, reversePiecePlacement).error
    ensures Fen.ParseFenSpec(fen, reversePiecePlacement).Ok? ==> r.error == TypeError
  {
    match Fen.ParseFenSpec(fen, reversePiecePlacement)
    case Err(e) => Err(e)
    case Ok(_) => Err(TypeError)
  }

  /** A square name is one token: neither of its two characters is white space. */
  lemma SquareNameHasNoSpace(s: string)
    requires IsSquareName(s)
    ensures NoSpace(s)
  {
    forall i | 0 <= i < |s|
      ensures !IsSpace(s[i])
    {
      assert i == 0 || i == 1;
    }
  }

  /**
   * A target naming an occupied square is one token and is read back as
   * written.
   */
  lemma SquareNameReadsBack(t: string)
    requires IsSquareName(t)
    ensures NoSpace(t)
    ensures Fen.EnPassantBack(Some(t)) == Some(t)
  {
    SquareNameHasNoSpace(t);
    assert |t| == 2 && |"-"| == 1;
  }

  /** The target names a square of the board that holds a piece. */
  predicate TargetOccupied(board: Fen.Grid, t: string)
  {
    IsSquareName(t) && ChessBoard.SetupAt(board, t[1] as int - '1' as int, t[0] as int - 'a' as int).Occ?
  }

  /** `_set_en_passant_pawn` accepts a target naming an occupied square. */
  lemma OccupiedTargetAccepted(board: Fen.Grid, t: string)
    requires TargetOccupied(board, t)
    ensures SetEnPassantPawn(board, t).None?
    ensures EnPassantError(board, Some(t)).None?
  {
    assert t != "";
  }

  /**
   * A record `create_fen` writes sets up the game it describes: the turn
   * counter is the full-move number, the fifty-move counter the half-move
   * clock, the side to move and the castling flags those of the record,
   * while the method as written refuses that same record with a TypeError.
   * `create_current_fen` writes as target the square of the pawn that may
   * be taken, so a target it writes names an occupied square on rank 4 or
   * 5, never on rank 8, whose en-passant key the start hash cannot read.
   */
  lemma FenStartRoundTrip(board: Fen.Grid, activeColor: Color, castlingRights: string,
                          enPassantTarget: Option<string>, halfmoveClock: int, fullmoveNumber: int,
                          hash: GameState.BoardHash)
    requires |board| >= 1 && forall i :: 0 <= i < |board| ==> Fen.GoodRow(board[i])
    requires Fen.Token(castlingRights)
    requires enPassantTarget.Some? ==>
               TargetOccupied(board, enPassantTarget.value) && enPassantTarget.value[1] != '8'
    requires ChessBoard.SetupOk(board) && CornersManned(board, Fen.CastlingFromFen(castlingRights))
    ensures var fen := Fen.FenOf(board, activeColor, castlingRights, enPassantTarget, halfmoveClock, fullmoveNumber);
            var r := GameFromFen(fen, false, hash);
            r.Ok? && r.value.book.currentTurn == fullmoveNumber && r.value.book.movesForFRule == halfmoveClock
            && r.value.book.playerTurn == activeColor && r.value.setup == board
            && (r.value.rights.whiteKing <==> 'K' in castlingRights) && (r.value.rights.blackQueen <==> 'q' in castlingRights)
            && r.value.enPassant == Fen.EnPassantBack(enPassantTarget)
            && GameFromFenAsWritten(fen, false) == Err(TypeError)
  {
    var fen := Fen.FenOf(board, activeColor, castlingRights, enPassantTarget, halfmoveClock, fullmoveNumber);
    TargetKept(board, enPassantTarget);
    Fen.FenRoundTrip(board, activeColor, castlingRights, enPassantTarget, halfmoveClock, fullmoveNumber);
    var info := Fen.FenInfo(board, activeColor, Fen.CastlingFromFen(castlingRights), enPassantTarget,
                            halfmoveClock, fullmoveNumber);
    StartFromRecord(fen, info, hash);
  }

  /**
   * A target naming an occupied square off rank 8, or none, is written, read
   * back and accepted unchanged, and the start hash reads its key.
   */
  lemma TargetKept(board: Fen.Grid, target: Option<string>)
    requires target.Some? ==> TargetOccupied(board, target.value) && target.value[1] != '8'
    ensures target.Some? ==> NoSpace(target.value)
    ensures Fen.EnPassantBack(target) == target
    ensures EnPassantError(board, target).None?
    ensures StartHashError(target).None?
  {
    if target.Some? {
      SquareNameReadsBack(target.value);
      OccupiedTargetAccepted(board, target.value);
    }
  }

  /** A record that parses, sets up, and passes every check starts the game it describes. */
  lemma StartFromRecord(fen: string, info: Fen.FenInfo, hash: GameState.BoardHash)
    requires Fen.ParseFenSpec(fen, false) == Ok(info)
    requires ChessBoard.SetupOk(info.board)
    requires EnPassantError(info.board, info.enPassantTarget).None?
    requires StartHashError(info.enPassantTarget).None?
    requires CornersManned(info.board, info.castlingRights)
    ensures var r := GameFromFen(fen, false, hash);
            r.Ok? && r.value.book.currentTurn == info.fullmoveNumber && r.value.book.movesForFRule == info.halfmoveClock
            && r.value.book.playerTurn == info.activeColor && r.value.setup == info.board
            && r.value.rights == info.castlingRights && r.value.enPassant == info.enPassantTarget
  {
  }
}
