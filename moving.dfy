/**
 * Moving a piece: the destination `move_to` reads from its argument, the
 * subclass hook that runs before every move, `move_to` itself, the
 * king's `castle`, and the legality filter of `calculate_legal_moves`
 * wired to the board. The list a piece's own generator produces is given
 * as a value; for the king, the pawn and the rook it is the one their rules
 * compute.
 */
module Moving {
  import opened Python
  import opened Notation
  import opened ChessBoard
  import opened Scans
  import opened LegalMoves
  import opened PawnRules
  import opened KingRules
  import opened RookRules
  import opened SanMove

  // ------------------------------------------------------ the destination

  /** `new_position`: coordinates, or a string in algebraic notation. */
  datatype Destination = Coordinates(row: int, column: int) | Written(s: string)

  /** What `_get_position_to` reads from the `PieceMove`: the promotion piece, the square and `move_to_compare`. */
  datatype MoveFacts = MoveFacts(coronationInto: Option<Kind>, square: Option<string>, moveToCompare: Option<string>)

  function FactsOf(m: PieceMove): MoveFacts
    reads m
  {
    MoveFacts(m.coronationInto, m.square, m.MoveToCompare())
  }

  /**
   * `_get_position_to`: the square the piece goes to and the value looked up
   * among its legal moves. Coordinates are both. A string needs the
   * `PieceMove` (without one, reading its `coronation_into` is an
   * AttributeError); without a promotion the string is converted, with one
   * the `PieceMove`'s square is converted (a missing one is a TypeError) and
   * `move_to_compare` is the value looked up.
   */
  function PositionTo(dest: Destination, facts: Option<MoveFacts>): (r: Result<((int, int), Option<Item>)>)
    ensures dest.Coordinates? ==> r == Ok(((dest.row, dest.column), Some(Square(dest.row, dest.column))))
    ensures dest.Written? && facts.None? ==> r == Err(AttributeError)
    ensures dest.Written? && facts.Some? && facts.value.coronationInto.None? ==>
              (r.Ok? <==> FromAlgebraic(dest.s).Ok?) &&
              (r.Err? ==> r.error == FromAlgebraic(dest.s).error) &&
              (r.Ok? ==> r.value == (FromAlgebraic(dest.s).value, Some(Square(FromAlgebraic(dest.s).value.0,
                                                                               FromAlgebraic(dest.s).value.1))))
    ensures dest.Written? && facts.Some? && facts.value.coronationInto.Some? ==>
              (facts.value.square.None? ==> r == Err(TypeError)) &&
              (facts.value.square.Some? ==>
                 (r.Ok? <==> FromAlgebraic(facts.value.square.value).Ok?) &&
                 (r.Ok? ==> r.value.0 == FromAlgebraic(facts.value.square.value).value &&
                            r.value.1 == (if facts.value.moveToCompare.Some? then Some(Name(facts.value.moveToCompare.value))
                                          else None)))
  {
    match dest
    case Coordinates(row, column) => Ok(((row, column), Some(Square(row, column))))
    case Written(s) =>
      if facts.None? then Err(AttributeError)
      else if facts.value.coronationInto.None? then
        match FromAlgebraic(s)
        case Err(e) => Err(e)
        case Ok(pos) => Ok((pos, Some(Square(pos.0, pos.1))))
      else if facts.value.square.None? then Err(TypeError)
      else
        match FromAlgebraic(facts.value.square.value)
        case Err(e) => Err(e)
        case Ok(pos) =>
          Ok((pos, if facts.value.moveToCompare.Some? then Some(Name(facts.value.moveToCompare.value)) else None))
  }

  /** A square named by its algebraic name goes where its coordinates go, and is looked up the same way. */
  lemma NamedSquareIsCoordinates(row: int, column: int, facts: MoveFacts)
    requires OnBoard(row, column) && facts.coronationInto.None?
    ensures PositionTo(Written(SquareName(row, column)), Some(facts)) == PositionTo(Coordinates(row, column), None)
  {
    FromToAlgebraic(row, column);
  }

  /** A square name always converts back to the coordinates it was written from. */
  lemma NamedDestinationConverts(s: string, facts: MoveFacts)
    requires IsSquareName(s) && facts.coronationInto.None?
    ensures PositionTo(Written(s), Some(facts)).Ok?
    ensures var pos := PositionTo(Written(s), Some(facts)).value.0;
            OnBoard(pos.0, pos.1) && ToAlgebraic(pos.0, pos.1) == Ok(s)
  {
    ToFromAlgebraic(s);
  }

  // ------------------------------------------------------ the pre-move hook

  /**
   * `__validate_before_moving` through the subclass `_validate_before_moving`:
   * on its first move a king gives up both castling rights of its colour,
   * and a rook the right of its own side. Every other piece, and every later
   * move, leaves the rights alone. A rook without a side writes a `None` key
   * the castling code never reads.
   */
  function AfterHook(rights: CastlingRights, kind: Kind, color: Color, firstMove: bool,
                     rookSide: Option<RookSide>): (r: CastlingRights)
    ensures !firstMove || (kind != King && kind != Rook) ==> r == rights
    ensures firstMove && kind == King ==> !r.Get(color, KingSide) && !r.Get(color, QueenSide)
    ensures firstMove && kind == Rook && rookSide.Some? ==> !r.Get(color, rookSide.value)
  {
    if firstMove && kind == King then rights.Set(color, KingSide, false).Set(color, QueenSide, false)
    else if firstMove && kind == Rook && rookSide.Some? then rights.Set(color, rookSide.value, false)
    else rights
  }

  /**
   * The hook only ever takes rights away, never touches the other colour,
   * and a rook's hook leaves the other side of its colour alone.
   */
  lemma HookOnlyClearsOwnRights(rights: CastlingRights, kind: Kind, color: Color, firstMove: bool,
                                rookSide: Option<RookSide>)
    ensures forall c, s :: AfterHook(rights, kind, color, firstMove, rookSide).Get(c, s) ==> rights.Get(c, s)
    ensures forall s :: AfterHook(rights, kind, color, firstMove, rookSide).Get(color.Opposite(), s) ==
                        rights.Get(color.Opposite(), s)
    ensures kind == Rook && rookSide.Some? ==>
              forall s :: s != rookSide.value ==>
                (AfterHook(rights, kind, color, firstMove, rookSide).Get(color, s) == rights.Get(color, s))
  {
  }

  /** Running the hook a second time changes nothing. */
  lemma HookIdempotent(rights: CastlingRights, kind: Kind, color: Color, firstMove: bool, rookSide: Option<RookSide>)
    ensures AfterHook(AfterHook(rights, kind, color, firstMove, rookSide), kind, color, firstMove, rookSide) ==
            AfterHook(rights, kind, color, firstMove, rookSide)
  {
    var once := AfterHook(rights, kind, color, firstMove, rookSide);
    var twice := AfterHook(once, kind, color, firstMove, rookSide);
    assert forall c, s :: twice.Get(c, s) == once.Get(c, s);
  }

  method ValidateBeforeMoving(piece: Piece)
    modifies piece.board
    ensures piece.board.rights == AfterHook(old(piece.board.rights), piece.kind, piece.color, piece.firstMove,
                                            piece.rookSide)
    ensures piece.board.grid == old(piece.board.grid) && piece.board.pieces == old(piece.board.pieces)
    ensures piece.board.nWhite == old(piece.board.nWhite) && piece.board.nBlack == old(piece.board.nBlack)
    ensures piece.board.isSetUp == old(piece.board.isSetUp)
  {
    var board := piece.board;
    if piece.kind == King && piece.firstMove {
      board.rights := board.rights.Set(piece.color, KingSide, false);
      board.rights := board.rights.Set(piece.color, QueenSide, false);
    } else if piece.kind == Rook && piece.firstMove && piece.rookSide.Some? {
      board.rights := board.rights.Set(piece.color, piece.rookSide.value, false);
    }
  }

  // ------------------------------------------------------------- move_to

  /**
   * Whether `move_to` goes ahead: a castling move always does, any other
   * when its comparison value is among the legal moves; computing those can
   * fail, and the failure is the result.
   */
  function Decision(inCastling: bool, compare: Option<Item>, legal: Result<seq<Item>>): (r: Result<bool>)
    ensures r == Ok(true) <==> inCastling || (legal.Ok? && compare.Some? && compare.value in legal.value)
    ensures r.Err? <==> !inCastling && legal.Err?
    ensures r.Err? ==> r.error == legal.error
  {
    if inCastling then Ok(true)
    else
      match legal
      case Err(e) => Err(e)
      case Ok(moves) => Ok(compare.Some? && compare.value in moves)
  }

  /** A pawn's move onto the square `_get_on_passant_square` offers is an en-passant capture. */
  predicate EnPassantMove(g: Grid, piece: Piece, pos: (int, int))
    requires IsGrid(g) && OnBoard(piece.row, piece.column)
    reads piece, RowPieces(g, piece.row)
  {
    piece.kind == Pawn && EnPassantSquare(g, piece.row, piece.column, piece.color) == Some(pos)
  }

  /**
   * `move_to`: the hook first, then the destination, then the decision;
   * when the move goes ahead the board is updated and the piece takes the
   * new position and loses its first move. `legal` is what
   * `calculate_legal_moves()` returns for the piece; it is only consulted
   * outside castling.
   */
  method MoveTo(piece: Piece, dest: Destination, inCastling: bool, facts: Option<MoveFacts>, legal: Result<seq<Item>>)
    returns (r: Result<bool>)
    requires piece.board.Valid() && piece.board.Owned() && OnBoard(piece.row, piece.column)
    modifies piece, piece.board, piece.board.OnGrid()
    ensures piece.board.Valid() && piece.board.Owned() && piece.board.isSetUp == old(piece.board.isSetUp)
    ensures piece.board.OnGrid() <= old(piece.board.OnGrid()) + {piece}
    ensures forall p: Piece :: p in old(piece.board.OnGrid()) && p != piece ==>
              p.row == old(p.row) && p.column == old(p.column) && p.firstMove == old(p.firstMove)
    ensures piece.board.rights.Within(AfterHook(old(piece.board.rights), piece.kind, piece.color, old(piece.firstMove),
                                                piece.rookSide))
    ensures PositionTo(dest, facts).Err? ==>
              r == Err(PositionTo(dest, facts).error) && unchanged(piece) &&
              (forall p: Piece :: p in old(piece.board.OnGrid()) ==> unchanged(p)) &&
              piece.board.rights == AfterHook(old(piece.board.rights), piece.kind, piece.color, old(piece.firstMove),
                                              piece.rookSide) &&
              piece.board.grid == old(piece.board.grid) && piece.board.pieces == old(piece.board.pieces)
    ensures PositionTo(dest, facts).Ok? && Decision(inCastling, PositionTo(dest, facts).value.1, legal) != Ok(true) ==>
              r == Decision(inCastling, PositionTo(dest, facts).value.1, legal) && unchanged(piece) &&
              (forall p: Piece :: p in old(piece.board.OnGrid()) ==> unchanged(p)) &&
              piece.board.rights == AfterHook(old(piece.board.rights), piece.kind, piece.color, old(piece.firstMove),
                                              piece.rookSide) &&
              piece.board.grid == old(piece.board.grid) && piece.board.pieces == old(piece.board.pieces)
    ensures r.Ok? ==> PositionTo(dest, facts).Ok? && r == Decision(inCastling, PositionTo(dest, facts).value.1, legal)
    ensures r == Ok(true) ==>
              var pos := PositionTo(dest, facts).value.0;
              piece.row == pos.0 && piece.column == pos.1 && !piece.firstMove &&
              Lookup(piece.board.grid, pos.0, pos.1) == Ok(piece as Piece?)
    ensures r == Ok(true) && PositionTo(dest, facts).value.0 != (old(piece.row), old(piece.column)) &&
            OnBoard(PositionTo(dest, facts).value.0.0, PositionTo(dest, facts).value.0.1) ==>
              piece.board.grid[old(piece.row)][old(piece.column)] == null
  {
    var board := piece.board;
    ValidateBeforeMoving(piece);
    var to := PositionTo(dest, facts);
    if to.Err? {
      return Err(to.error);
    }
    var pos := to.value.0;
    var isEnPassant := false;
    if piece.kind == Pawn {
      var square := GetOnPassantSquare(piece);
      isEnPassant := square == Some(pos);
    }
    var decision := Decision(inCastling, to.value.1, legal);
    if decision != Ok(true) {
      return decision;
    }
    r := Advance(piece, pos, isEnPassant);
  }

  /** The accepted move: the board is updated, then the piece takes `pos` and loses its first move. */
  method Advance(piece: Piece, pos: (int, int), isEnPassant: bool) returns (r: Result<bool>)
    requires piece.board.Valid() && piece.board.Owned() && OnBoard(piece.row, piece.column)
    modifies piece, piece.board, piece.board.OnGrid()
    ensures piece.board.Valid() && piece.board.Owned() && piece.board.isSetUp == old(piece.board.isSetUp)
    ensures piece.board.OnGrid() <= old(piece.board.OnGrid()) + {piece}
    ensures forall p: Piece :: p in old(piece.board.OnGrid()) && p != piece ==>
              p.row == old(p.row) && p.column == old(p.column) && p.firstMove == old(p.firstMove)
    ensures piece.board.rights.Within(old(piece.board.rights))
    ensures r.Ok? ==> r == Ok(true)
    ensures r == Ok(true) ==>
              piece.row == pos.0 && piece.column == pos.1 && !piece.firstMove &&
              Lookup(piece.board.grid, pos.0, pos.1) == Ok(piece as Piece?)
    ensures r == Ok(true) && pos != (old(piece.row), old(piece.column)) && OnBoard(pos.0, pos.1) ==>
              piece.board.grid[old(piece.row)][old(piece.column)] == null
  {
    var updated := piece.board.UpdateBoard(piece.row, piece.column, pos.0, pos.1, piece, isEnPassant);
    if updated.Err? {
      return Err(updated.error);
    }
    piece.row, piece.column := pos.0, pos.1;
    piece.firstMove := false;
    r := Ok(true);
  }

  // ------------------------------------------------ calculate_legal_moves

  /** The king `calculate_legal_moves` consults: the first of its colour's king list, if any. */
  function ConsultedKing(board: Board, color: Color): set<Piece>
    reads board
  {
    var kings := board.GetPiece(King, color);
    if kings.Ok? && kings.value != [] then {kings.value[0]} else {}
  }

  /**
   * `calculate_legal_moves`: a king's own list is final; for any other
   * piece the line to its own king is scanned, the first king of its colour
   * is asked `check_if_in_check` (which records the answer on the king) and
   * the list is filtered as `LegalSpec` says. `pieceMoves` is what the
   * piece's `_calculate_legal_moves` returned.
   */
  method CalculateLegalMoves(piece: Piece, pieceMoves: seq<Item>, algebraic: bool) returns (r: Result<seq<Item>>)
    requires piece.board.Valid() && Placed(piece.board.grid) && OnBoard(piece.row, piece.column)
    requires forall k :: k in ConsultedKing(piece.board, piece.color) ==> k.board == piece.board && OnBoard(k.row, k.column)
    modifies ConsultedKing(piece.board, piece.color)`attackingMe, ConsultedKing(piece.board, piece.color)`isInCheck
    ensures piece.kind == King ==> r == Ok(pieceMoves)
    ensures piece.kind != King && piece.board.GetPiece(King, piece.color).Err? ==> r == Err(KeyError)
    ensures piece.kind != King && piece.board.GetPiece(King, piece.color) == Ok([]) ==> r == Ok(pieceMoves)
    ensures piece.kind != King && ConsultedKing(piece.board, piece.color) != {} ==>
              var king := piece.board.pieces[(piece.color, King)][0];
              king.isInCheck == (king.attackingMe != []) &&
              r == LegalSpec(piece.kind, piece.color, pieceMoves,
                             FriendlyKingLine(DefaultScans(piece.board.grid, piece.row, piece.column), piece.color),
                             piece.board.GetPiece(King, piece.color), king.attackingMe,
                             DefaultScans(piece.board.grid, king.row, king.column), algebraic)
  {
    var board := piece.board;
    if piece.kind == King {
      return Ok(pieceMoves);
    }
    var line := CheckIfFriendlyKingIsNextToPiece(board, piece);
    var kings := board.GetPiece(King, piece.color);
    if kings.Err? {
      return Err(kings.error);
    }
    if kings.value == [] {
      return Ok(pieceMoves);
    }
    var king := kings.value[0];
    assert ConsultedKing(board, piece.color) == {king};
    r := FilterForKing(piece, king, pieceMoves, line, kings, algebraic);
  }

  /** The part of `calculate_legal_moves` after the own king is found: ask it about check, then filter. */
  method FilterForKing(piece: Piece, king: Piece, pieceMoves: seq<Item>, line: Option<KingLine>,
                       kings: Result<seq<Piece>>, algebraic: bool) returns (r: Result<seq<Item>>)
    requires king.board.Valid() && Placed(king.board.grid) && OnBoard(king.row, king.column)
    modifies king`attackingMe, king`isInCheck
    ensures king.isInCheck == (king.attackingMe != [])
    ensures r == LegalSpec(piece.kind, piece.color, pieceMoves, line, kings, king.attackingMe,
                           DefaultScans(king.board.grid, king.row, king.column), algebraic)
  {
    var inCheck, attackers := CheckIfInCheck(king);
    var kingScans := ScanAll(king.board, king.row, king.column);
    r := LegalSpec(piece.kind, piece.color, pieceMoves, line, kings, attackers, kingScans, algebraic);
  }

  // -------------------------------------------------------------- castle

  /** The first rook of `side` in a rook list: `[r for r in rooks if r.rook_side == side][0]`, `None` for an IndexError. */
  function FirstOnSide(rooks: seq<Piece>, side: RookSide): (r: Option<Piece>)
    ensures r.None? <==> forall p :: p in rooks ==> p.rookSide != Some(side)
    ensures r.Some? ==> exists i :: 0 <= i < |rooks| && rooks[i] == r.value && r.value.rookSide == Some(side) &&
                                    forall j :: 0 <= j < i ==> rooks[j].rookSide != Some(side)
  {
    if rooks == [] then None
    else if rooks[0].rookSide == Some(side) then Some(rooks[0])
    else
      var rest := FirstOnSide(rooks[1..], side);
      if rest.Some? then
        ghost var i :| 0 <= i < |rooks[1..]| && rooks[1..][i] == rest.value && rest.value.rookSide == Some(side) &&
                       forall j :: 0 <= j < i ==> rooks[1..][j].rookSide != Some(side);
        assert rooks[i + 1] == rest.value;
        rest
      else
        assert forall p :: p in rooks ==> p == rooks[0] || p in rooks[1..];
        None
  }

  /**
   * The rook `castle` moves: looking up the colour's rooks is a KeyError
   * when none was ever listed, and finding none of that side an IndexError.
   */
  function CastlingRook(board: Board, color: Color, side: RookSide): (r: Result<Piece>)
    reads board
    ensures (color, Rook) !in board.pieces ==> r == Err(KeyError)
    ensures (color, Rook) in board.pieces ==>
              (r.Err? <==> forall p :: p in board.pieces[(color, Rook)] ==> p.rookSide != Some(side))
    ensures r.Err? ==> r.error in {KeyError, IndexError}
    ensures r.Ok? ==> r.value in ListOf(board.pieces, color, Rook) && r.value.rookSide == Some(side)
  {
    match board.GetPiece(Rook, color)
    case Err(e) => Err(e)
    case Ok(rooks) =>
      match FirstOnSide(rooks, side)
      case None => Err(IndexError)
      case Some(rook) => Ok(rook)
  }

  /** The file step towards the rook of `side`. */
  function Direction(side: RookSide): (d: int)
    ensures d == 1 || d == -1
    ensures d == 1 <==> side == KingSide
  {
    if side == KingSide then 1 else -1
  }

  /**
   * `castle` as written. The rook's `move_to` asks for the rook's legal
   * moves, whose generator raises a TypeError, so once castling is possible
   * and the rook is found, the call ends in that error after the rook's
   * hook has run; the king's own move that follows is never reached and
   * `True` is never returned.
   */
  method Castle(king: Piece, side: RookSide, attacked: seq<(int, int)>) returns (r: Result<bool>)
    requires king.board.Valid() && king.board.Owned()
    requires king.kind == King
    requires forall p :: p in ListOf(king.board.pieces, king.color, Rook) ==>
               p.kind == Rook && p.color == king.color && p.board == king.board && OnBoard(p.row, p.column)
    modifies king.board, king.board.OnGrid(), king, set p | p in ListOf(king.board.pieces, king.color, Rook)
    ensures r != Ok(true)
    ensures king.board.grid == old(king.board.grid) && king.board.pieces == old(king.board.pieces)
    ensures king.board.OnGrid() == old(king.board.OnGrid()) && unchanged(king)
    ensures var possible := old(CastlingPossible(king.board.grid, king.board.rights, king.color, king.row,
                                                  king.column, side, attacked));
            possible != Ok(true) ==> r == possible && king.board.rights == old(king.board.rights)
    ensures var possible := old(CastlingPossible(king.board.grid, king.board.rights, king.color, king.row,
                                                  king.column, side, attacked));
            var rook := old(CastlingRook(king.board, king.color, side));
            possible == Ok(true) ==>
              (rook.Err? ==> r == Err(rook.error) && king.board.rights == old(king.board.rights)) &&
              (rook.Ok? ==> r == Err(TypeError) &&
                            king.board.rights == AfterHook(old(king.board.rights), Rook, king.color,
                                                           old(rook.value.firstMove), Some(side)))
  {
    var board := king.board;
    var possible := CheckCastling(king, side, attacked);
    if possible != Ok(true) {
      return possible;
    }
    var found := CastlingRook(board, king.color, side);
    if found.Err? {
      return Err(found.error);
    }
    var rook := found.value;
    var legal := CalculateRookMoves(rook, true, false, false);
    r := MoveTo(rook, Coordinates(king.row, king.column + Direction(side)), false, None, legal);
  }

  /**
   * The rook's half of a castling: its moves are generated by its four
   * lines (`RookLegalMoves`) and filtered by `calculate_legal_moves`, then
   * it is moved to the file next to the king. They are computed just before
   * its `move_to` rather than inside it: its hook only touches the castling
   * rights, which they do not depend on. The king itself stays where it is.
   */
  method CastlingRookMove(king: Piece, rook: Piece, side: RookSide) returns (r: Result<bool>)
    requires king.board.Valid() && king.board.Owned() && Placed(king.board.grid) && OnBoard(king.row, king.column)
    requires king.kind == King && rook.kind == Rook && rook.color == king.color && rook.rookSide == Some(side)
    requires rook.board == king.board && OnBoard(rook.row, rook.column)
    requires forall k :: k in ConsultedKing(king.board, king.color) ==> k.board == king.board && OnBoard(k.row, k.column)
    modifies king.board, king.board.OnGrid(), rook, ConsultedKing(king.board, king.color)
    ensures king.board.Valid() && king.board.Owned()
    ensures king.board.OnGrid() <= old(king.board.OnGrid()) + {rook}
    ensures king.row == old(king.row) && king.column == old(king.column) && king.firstMove == old(king.firstMove)
    ensures king.board.rights.Within(AfterHook(old(king.board.rights), Rook, king.color, old(rook.firstMove), Some(side)))
    ensures r == Ok(true) ==> rook.row == old(king.row) && rook.column == old(king.column) + Direction(side) && !rook.firstMove
    ensures r.Ok? && r != Ok(true) ==> rook.row == old(rook.row) && rook.column == old(rook.column)
  {
    var legal := RookCastlingLegalMoves(rook);
    r := MoveTo(rook, Coordinates(king.row, king.column + Direction(side)), false, None, legal);
  }

  /** The rook's legal moves as `calculate_legal_moves` filters its four lines. */
  method RookCastlingLegalMoves(rook: Piece) returns (legal: Result<seq<Item>>)
    requires rook.kind == Rook && rook.board.Valid() && Placed(rook.board.grid) && OnBoard(rook.row, rook.column)
    requires forall k :: k in ConsultedKing(rook.board, rook.color) ==> k.board == rook.board && OnBoard(k.row, k.column)
    modifies ConsultedKing(rook.board, rook.color)`attackingMe, ConsultedKing(rook.board, rook.color)`isInCheck
    ensures rook.board.GetPiece(King, rook.color).Err? ==> legal == Err(KeyError)
  {
    var rookMoves := RookLegalMoves(rook);
    legal := CalculateLegalMoves(rook, rookMoves, false);
  }

  /**
   * The two moves of a castling: the rook's (`CastlingRookMove`), whose
   * answer is ignored as in `castle`, then the king two files towards the
   * rook in castling mode, which skips its legality test. An exception ends
   * the call.
   */
  method CastlingMoves(king: Piece, rook: Piece, side: RookSide) returns (r: Result<bool>)
    requires king.board.Valid() && king.board.Owned() && Placed(king.board.grid) && OnBoard(king.row, king.column)
    requires king.kind == King && rook.kind == Rook && rook.color == king.color && rook.rookSide == Some(side)
    requires rook.board == king.board && OnBoard(rook.row, rook.column)
    requires forall k :: k in ConsultedKing(king.board, king.color) ==> k.board == king.board && OnBoard(k.row, k.column)
    modifies king.board, king.board.OnGrid(), king, rook, ConsultedKing(king.board, king.color)
    ensures king.board.Valid() && king.board.Owned()
    ensures r.Ok? ==> r.value
    ensures r.Ok? ==>
              king.row == old(king.row) && king.column == old(king.column) + 2 * Direction(side) && !king.firstMove &&
              Lookup(king.board.grid, king.row, king.column) == Ok(king as Piece?)
    ensures r.Ok? ==>
              (rook.row == old(rook.row) && rook.column == old(rook.column)) ||
              (rook.row == old(king.row) && rook.column == old(king.column) + Direction(side) && !rook.firstMove)
    ensures r.Ok? ==>
              king.board.rights.Within(
                AfterHook(AfterHook(old(king.board.rights), Rook, king.color, old(rook.firstMove), Some(side)),
                          King, king.color, old(king.firstMove), None))
  {
    var rookMoved := CastlingRookMove(king, rook, side);
    if rookMoved.Err? {
      return Err(rookMoved.error);
    }
    ghost var rookAt := (rook.row, rook.column, rook.firstMove);
    var kingMoved := MoveTo(king, Coordinates(king.row, king.column + 2 * Direction(side)), true, None, Ok([]));
    if kingMoved.Err? {
      return Err(kingMoved.error);
    }
    assert (rook.row, rook.column, rook.firstMove) == rookAt;
    r := Ok(true);
  }

  /** `castle` corrected: the same checks, then `CastlingMoves`, which moves the rook as a rook moves. */
  method CastleFixed(king: Piece, side: RookSide, attacked: seq<(int, int)>) returns (r: Result<bool>)
    requires king.board.Valid() && king.board.Owned() && Placed(king.board.grid) && OnBoard(king.row, king.column)
    requires king.kind == King
    requires forall p :: p in ListOf(king.board.pieces, king.color, Rook) ==>
               p.kind == Rook && p.color == king.color && p.board == king.board && OnBoard(p.row, p.column)
    requires forall k :: k in ConsultedKing(king.board, king.color) ==> k.board == king.board && OnBoard(k.row, k.column)
    modifies king.board, king.board.OnGrid(), king, set p | p in ListOf(king.board.pieces, king.color, Rook)
    modifies ConsultedKing(king.board, king.color)
    ensures king.board.Valid() && king.board.Owned()
    ensures var possible := old(CastlingPossible(king.board.grid, king.board.rights, king.color, king.row,
                                                  king.column, side, attacked));
            possible != Ok(true) ==>
              r == possible && king.board.rights == old(king.board.rights) &&
              king.board.grid == old(king.board.grid) && king.board.pieces == old(king.board.pieces)
    ensures r == Ok(true) ==>
              old(CastlingPossible(king.board.grid, king.board.rights, king.color, king.row, king.column, side,
                                   attacked)) == Ok(true) &&
              old(CastlingRook(king.board, king.color, side)).Ok?
    ensures r == Ok(true) ==>
              king.row == old(king.row) && king.column == old(king.column) + 2 * Direction(side) && !king.firstMove &&
              Lookup(king.board.grid, king.row, king.column) == Ok(king as Piece?)
    ensures r == Ok(true) ==>
              var rook := old(CastlingRook(king.board, king.color, side)).value;
              (rook.row == old(rook.row) && rook.column == old(rook.column)) ||
              (rook.row == old(king.row) && rook.column == old(king.column) + Direction(side) && !rook.firstMove)
    ensures r == Ok(true) && old(king.firstMove) ==>
              !king.board.rights.Get(king.color, KingSide) && !king.board.rights.Get(king.color, QueenSide)
  {
    var board := king.board;
    var possible := CheckCastling(king, side, attacked);
    if possible != Ok(true) {
      return possible;
    }
    var found := CastlingRook(board, king.color, side);
    if found.Err? {
      return Err(found.error);
    }
    r := CastlingMoves(king, found.value, side);
  }
}
