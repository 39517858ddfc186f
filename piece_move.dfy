/**
 * `PieceMove`: the decoder of a move written in (simplified) Standard
 * Algebraic Notation, section 8.2.3 of the PGN Standard. The move is first
 * stripped of its decoration, then the piece, the target square and its
 * (row, column), the file or rank that disambiguates the mover, the castling
 * side, the promotion piece and whether the target holds an enemy piece are
 * read off it. The decoder never checks legality.
 *
 * The value-level functions below say what each `_set_*` step computes;
 * the class runs those steps on its fields in the order the constructor does.
 */
module SanMove {
  import opened Python
  import opened Notation
  import opened ChessBoard

  // ------------------------------------------------------- decoration

  /** `move.replace('x', '').replace('+', '').replace('#', '').replace('=', '')`. */
  function Stripped(move: string): (s: string)
    ensures 'x' !in s && '+' !in s && '#' !in s && '=' !in s
    ensures |s| <= |move|
  {
    RemoveChar(RemoveChar(RemoveChar(RemoveChar(move, 'x'), '+'), '#'), '=')
  }

  predicate Undecorated(move: string)
  {
    'x' !in move && '+' !in move && '#' !in move && '=' !in move
  }

  /**
   * `_set_abreviate_move`: the stripped move without one leading 'P'; an
   * IndexError when nothing is left after stripping.
   */
  function Abbreviate(move: string): (r: Result<string>)
    ensures r.Err? <==> Stripped(move) == ""
    ensures r.Err? ==> r.error == IndexError
    ensures r.Ok? ==> Undecorated(r.value)
    ensures r.Ok? ==> Stripped(move) == (if Stripped(move)[0] == 'P' then "P" else "") + r.value
  {
    var s := Stripped(move);
    if s == "" then Err(IndexError)
    else if s[0] == 'P' then
      assert s == "P" + s[1..];
      Ok(s[1..])
    else Ok(s)
  }

  lemma StrippedAppend(a: string, b: string)
    ensures Stripped(a + b) == Stripped(a) + Stripped(b)
  {
    RemoveCharAppend(a, b, 'x');
    RemoveCharAppend(RemoveChar(a, 'x'), RemoveChar(b, 'x'), '+');
    RemoveCharAppend(RemoveChar(RemoveChar(a, 'x'), '+'), RemoveChar(RemoveChar(b, 'x'), '+'), '#');
    RemoveCharAppend(RemoveChar(RemoveChar(RemoveChar(a, 'x'), '+'), '#'),
                     RemoveChar(RemoveChar(RemoveChar(b, 'x'), '+'), '#'), '=');
  }

  /** An undecorated move that does not start with 'P' is its own abbreviation; a leading 'P' is dropped. */
  lemma AbbreviateUndecorated(m: string)
    requires Undecorated(m) && m != "" && m[0] != 'P'
    ensures Abbreviate(m) == Ok(m)
    ensures Abbreviate("P" + m) == Ok(m)
  {
    assert Stripped(m) == m;
    assert Undecorated("P" + m) by {
      assert forall c :: c in "P" + m ==> c == 'P' || c in m;
    }
    assert Stripped("P" + m) == "P" + m;
    assert ("P" + m)[1..] == m;
  }

  lemma StrippedDecoration(d: char)
    requires d == 'x' || d == '+' || d == '#' || d == '='
    ensures Stripped([d]) == ""
  {
    assert [d][1..] == "";
  }

  /** What stripping keeps of one character. */
  function Kept(c: char): string
  {
    if c == 'x' || c == '+' || c == '#' || c == '=' then "" else [c]
  }

  lemma StrippedUndecorated(s: string)
    requires Undecorated(s)
    ensures Stripped(s) == s
  {
  }

  /** Stripping works character by character. */
  lemma StrippedCons(c: char, s: string)
    ensures Stripped([c] + s) == Kept(c) + Stripped(s)
  {
    StrippedAppend([c], s);
    assert [c][1..] == [];
  }

  /** A stripped move that does not start with 'P' is the abbreviation. */
  lemma AbbreviateOf(move: string, s: string)
    requires Stripped(move) == s && s != "" && s[0] != 'P'
    ensures Abbreviate(move) == Ok(s)
  {
  }

  /** Check and mate marks, capture marks and promotion signs do not change the abbreviation. */
  lemma AbbreviateIgnoresDecoration(a: string, b: string, d: char)
    requires d == 'x' || d == '+' || d == '#' || d == '='
    ensures Abbreviate(a + [d] + b) == Abbreviate(a + b)
  {
    calc {
      Stripped(a + [d] + b);
    == { StrippedAppend(a + [d], b); }
      Stripped(a + [d]) + Stripped(b);
    == { StrippedAppend(a, [d]); StrippedDecoration(d); }
      Stripped(a) + Stripped(b);
    == { StrippedAppend(a, b); }
      Stripped(a + b);
    }
  }

  // ----------------------------------------------------- the moved piece

  predicate IsCastlingText(s: string)
  {
    s == "O-O" || s == "O-O-O"
  }

  predicate IsFileChar(c: char) { 'a' <= c <= 'h' }   // `c in 'abcdefgh'`

  predicate IsRankChar(c: char) { '1' <= c <= '8' }   // `c in '12345678'`

  /**
   * `_set_piece`, as (piece, is castling): a pawn when the abbreviation has
   * length 2 or starts with a file, the king for the two castling strings,
   * otherwise the piece whose letter starts it. Python reads `abr[0]` of an
   * empty abbreviation (IndexError); an unknown letter is an InvalidMoveError.
   */
  function Classify(abr: string): (r: Result<(Kind, bool)>)
    ensures r.Err? <==> abr == "" || (|abr| != 2 && !IsFileChar(abr[0]) && !IsCastlingText(abr)
                                      && KindOfLetter(abr[0]).None?)
    ensures r.Err? ==> r.error == (if abr == "" then IndexError else InvalidMoveError)
    ensures r.Ok? ==> (r.value.1 <==> IsCastlingText(abr)) && (r.value.1 ==> r.value.0 == King)
    ensures r.Ok? ==> (r.value.0 == Pawn <==> |abr| == 2 || IsFileChar(abr[0]) || abr[0] == 'P')
    ensures r.Ok? && |abr| != 2 && !IsFileChar(abr[0]) && !r.value.1 ==> KindLetter(r.value.0) == abr[0]
  {
    if |abr| == 2 then Ok((Pawn, false))
    else if abr == "" then Err(IndexError)
    else if IsFileChar(abr[0]) then Ok((Pawn, false))
    else if IsCastlingText(abr) then Ok((King, true))
    else match KindOfLetter(abr[0])
      case None => Err(InvalidMoveError)
      case Some(k) => Ok((k, false))
  }

  // ---------------------------------------------------- the target square

  /**
   * `_get_castleling_square`, keyed on the move as given: g1/g8 and the king
   * side for "O-O", c1/c8 and the queen side for "O-O-O", and `None` for
   * anything else (a decorated "O-O+" included).
   */
  function CastlingSquare(move: string, turn: Color): (r: Option<(string, RookSide)>)
    ensures r.Some? <==> IsCastlingText(move)
    ensures r.Some? ==> r.value.1 == (if move == "O-O" then KingSide else QueenSide)
    ensures r.Some? ==> IsSquareName(r.value.0) && r.value.0[1] == (if turn == White then '1' else '8')
  {
    if move == "O-O" then Some((if turn == White then "g1" else "g8", KingSide))
    else if move == "O-O-O" then Some((if turn == White then "c1" else "c8", QueenSide))
    else None
  }

  /** What `_set_square_and_pos` writes. */
  datatype Target = Target(square: string, squarePos: (int, int), row: Option<int>,
                           pieceFile: Option<char>, castlingSide: Option<RookSide>)

  function Min(a: int, b: int): int { if a < b then a else b }

  /** The home row of a colour: where its king castles. */
  function HomeRow(c: Color): int { if c == White then 0 else 7 }

  /**
   * `_set_square_and_pos` for the two castling strings: the square is the
   * abbreviation itself and the position comes from `_get_castleling_square`,
   * whose `None` (a move that is not exactly "O-O" or "O-O-O") makes the
   * conversion a TypeError.
   */
  function CastlingTarget(move: string, abr: string, turn: Color): (r: Result<Target>)
    ensures r.Ok? <==> IsCastlingText(move)
    ensures r.Err? ==> r.error == TypeError
    ensures r.Ok? ==>
              r.value.square == abr && r.value.row.None? && r.value.pieceFile.None? &&
              r.value.castlingSide == Some(if move == "O-O" then KingSide else QueenSide) &&
              r.value.squarePos == (HomeRow(turn), if move == "O-O" then 6 else 2)
  {
    match CastlingSquare(move, turn)
    case None => Err(TypeError)
    case Some((sq, side)) => Ok(Target(abr, FromAlgebraic(sq).value, None, None, Some(side)))
  }

  /**
   * `_set_square_and_pos` for every other move: a non-pawn with a rank digit
   * second gets `row`; the square is the last two characters, or for a
   * promoting pawn `abr[1:3]` (capture) or `abr[:2]`; a four-character move
   * with a file second names the mover's file, and a pawn's file is its
   * first character; the position is the square converted back.
   */
  function PlainTarget(move: string, abr: string, kind: Kind): (r: Result<Target>)
    requires abr != ""
    ensures |abr| < 2 ==> r == Err(IndexError)
    ensures r.Ok? ==> |r.value.square| >= 2
    ensures r.Ok? ==> r.value.castlingSide.None? && FromAlgebraic(r.value.square) == Ok(r.value.squarePos)
    ensures r.Ok? ==>
              (r.value.row.Some? <==> kind != Pawn && IsRankChar(abr[1])) &&
              (r.value.row.Some? ==> r.value.row.value == abr[1] as int - '1' as int)
    ensures r.Ok? && (kind != Pawn || '=' !in move) ==> r.value.square == abr[|abr| - 2..]
    ensures r.Ok? && kind != Pawn ==>
              (r.value.pieceFile.Some? <==> |abr| == 4 && IsFileChar(abr[1])) &&
              (r.value.pieceFile.Some? ==> r.value.pieceFile.value == abr[1])
    ensures r.Ok? && kind == Pawn ==> r.value.pieceFile == Some(abr[0])
    ensures r.Ok? && kind == Pawn && '=' in move ==>
              if 'x' in move then |abr| >= 3 && r.value.square == abr[1..3] else r.value.square == abr[..2]
  {
    if |abr| < 2 then Err(IndexError)
    else
      var square := SquareText(move, abr, kind);
      match FromAlgebraic(square)
      case Err(e) => Err(e)
      case Ok(pos) => Ok(Target(square, pos, RowHint(abr, kind), FileHint(abr, kind), None))
  }

  /** The square text: the last two characters, or the promotion slices. */
  function SquareText(move: string, abr: string, kind: Kind): (sq: string)
    requires |abr| >= 2
    ensures kind != Pawn || '=' !in move ==> sq == abr[|abr| - 2..]
    ensures kind == Pawn && '=' in move ==>
              sq == if 'x' in move then abr[1..Min(3, |abr|)] else abr[..2]
  {
    if kind == Pawn && '=' in move then
      (if 'x' in move then abr[1..Min(3, |abr|)] else abr[..2])
    else abr[|abr| - 2..]
  }

  /** The `row` hint: a non-pawn's rank digit, as a row index. */
  function RowHint(abr: string, kind: Kind): (row: Option<int>)
    requires |abr| >= 2
    ensures row.Some? <==> kind != Pawn && IsRankChar(abr[1])
    ensures row.Some? ==> row.value == abr[1] as int - '1' as int
  {
    if IsRankChar(abr[1]) && kind != Pawn then Some(DigitValue(abr[1]) - 1) else None
  }

  /** The `piece_file` hint: a pawn's first character, or a four-character move's second. */
  function FileHint(abr: string, kind: Kind): (file: Option<char>)
    requires |abr| >= 2
    ensures kind == Pawn ==> file == Some(abr[0])
    ensures kind != Pawn ==> (file.Some? <==> |abr| == 4 && IsFileChar(abr[1]))
    ensures kind != Pawn && file.Some? ==> file.value == abr[1]
  {
    if kind == Pawn then Some(abr[0])
    else if |abr| == 4 && IsFileChar(abr[1]) then Some(abr[1])
    else None
  }

  /** `_set_square_and_pos`. */
  function TargetOf(move: string, abr: string, kind: Kind, turn: Color): (r: Result<Target>)
    requires abr != ""
    ensures r.Ok? ==> |r.value.square| >= 2
  {
    if IsCastlingText(abr) then CastlingTarget(move, abr, turn) else PlainTarget(move, abr, kind)
  }

  // ------------------------------------------------- promotion and capture

  /**
   * `_set_coronation`: a pawn moving to rank 8 or 1 promotes into the piece
   * whose letter ends the abbreviation, if any.
   */
  function Coronation(kind: Kind, square: string, abr: string): (r: Option<Kind>)
    requires |square| >= 2 && abr != ""
    ensures r.Some? <==> kind == Pawn && (square[1] == '8' || square[1] == '1')
                         && KindOfLetter(abr[|abr| - 1]).Some?
    ensures r.Some? ==> KindLetter(r.value) == abr[|abr| - 1]
  {
    if kind == Pawn && (square[1] == '8' || square[1] == '1') then KindOfLetter(abr[|abr| - 1])
    else None
  }

  /** `board[row][column]` on the value view, with Python indexing. */
  function CellAt(view: seq<seq<Cell>>, row: int, column: int): (r: Result<Cell>)
    requires |view| == 8 && forall i :: 0 <= i < 8 ==> |view[i]| == 8
    ensures r.Err? <==> PyIndex(row, 8).None? || PyIndex(column, 8).None?
    ensures r.Err? ==> r.error == IndexError
    ensures OnBoard(row, column) ==> r == Ok(view[row][column])
  {
    match (PyIndex(row, 8), PyIndex(column, 8))
    case (Some(i), Some(j)) => Ok(view[i][j])
    case _ => Err(IndexError)
  }

  /** `_set_is_capture`: the target holds a piece of the other colour. */
  function CaptureAt(view: seq<seq<Cell>>, pos: (int, int), turn: Color): (r: Result<bool>)
    requires |view| == 8 && forall i :: 0 <= i < 8 ==> |view[i]| == 8
    ensures r.Err? <==> CellAt(view, pos.0, pos.1).Err?
    ensures r.Err? ==> r.error == IndexError
    ensures r.Ok? ==> (r.value <==> exists k :: CellAt(view, pos.0, pos.1) == Ok(Occ(k, turn.Opposite())))
  {
    match CellAt(view, pos.0, pos.1)
    case Err(e) => Err(e)
    case Ok(cell) =>
      if cell.Occ? then
        assert cell.color != turn ==> cell == Occ(cell.kind, turn.Opposite());
        Ok(cell.color != turn)
      else Ok(false)
  }

  // ----------------------------------------------------------- the whole

  /** Everything the constructor leaves in the fields of a decoded move. */
  datatype MoveInfo = MoveInfo(abrMove: string, kind: Kind, isCastling: bool, target: Target,
                               coronationInto: Option<Kind>, isCapture: bool)

  /** `_set_move_information` on an abbreviation: piece, square and position, coronation, capture. */
  function DecodeFrom(move: string, abr: string, view: seq<seq<Cell>>, turn: Color): (r: Result<MoveInfo>)
    requires |view| == 8 && forall i :: 0 <= i < 8 ==> |view[i]| == 8
    ensures r.Ok? ==> r.value.abrMove == abr && abr != ""
    ensures r.Ok? ==> CaptureAt(view, r.value.target.squarePos, turn) == Ok(r.value.isCapture)
  {
    var piece :- Classify(abr);
    var target :- TargetOf(move, abr, piece.0, turn);
    var coronation := Coronation(piece.0, target.square, abr);
    var capture :- CaptureAt(view, target.squarePos, turn);
    Ok(MoveInfo(abr, piece.0, piece.1, target, coronation, capture))
  }

  /** The constructor's steps in order; the first exception ends the decoding. */
  function ParseMove(move: string, view: seq<seq<Cell>>, turn: Color): (r: Result<MoveInfo>)
    requires |view| == 8 && forall i :: 0 <= i < 8 ==> |view[i]| == 8
    ensures r.Ok? ==> Undecorated(r.value.abrMove) && r.value.abrMove != ""
    ensures r.Ok? ==> CaptureAt(view, r.value.target.squarePos, turn) == Ok(r.value.isCapture)
  {
    var abr :- Abbreviate(move);
    DecodeFrom(move, abr, view, turn)
  }

  /**
   * The two `for piece in PieceName` searches (`_set_piece`, `_set_coronation`):
   * the first member whose letter is `letter`.
   */
  method FirstWithLetter(letter: char) returns (found: Option<Kind>)
    ensures found == KindOfLetter(letter)
  {
    found := None;
    var i := 0;
    while i < |AllKinds| && found.None?
      invariant 0 <= i <= |AllKinds|
      invariant found.None? ==> forall j :: 0 <= j < i ==> KindLetter(AllKinds[j]) != letter
      invariant found.Some? ==> KindLetter(found.value) == letter
    {
      if KindLetter(AllKinds[i]) == letter {
        found := Some(AllKinds[i]);
      }
      i := i + 1;
    }
    if found.Some? {
      LettersDistinct(found.value, KindOfLetter(letter).value);
    } else {
      assert KindLetter(AllKinds[0]) != letter && KindLetter(AllKinds[1]) != letter;
      assert KindLetter(AllKinds[2]) != letter && KindLetter(AllKinds[3]) != letter;
      assert KindLetter(AllKinds[4]) != letter && KindLetter(AllKinds[5]) != letter;
    }
  }

  /** `PieceMove`: the decoded move, filled in step by step by the constructor. */
  class PieceMove {
    const move: string
    const board: Board
    const playerTurn: Color
    /** `_abr_move`. */
    var abrMove: Option<string>
    var isCapture: bool
    var pieceFile: Option<char>
    var pieceName: Option<Kind>
    var pieceAbbreviation: Option<char>
    var coronationInto: Option<Kind>
    var row: Option<int>
    var square: Option<string>
    var squarePos: Option<(int, int)>
    /** `is_castleling` / `castleling_side`. */
    var isCastling: bool
    var castlingSide: Option<RookSide>

    /** The field defaults `__init__` assigns before it decodes the move. */
    constructor (move: string, board: Board, playerTurn: Color)
      ensures this.move == move && this.board == board && this.playerTurn == playerTurn
      ensures abrMove.None? && Undecoded()
    {
      this.move := move;
      this.board := board;
      this.playerTurn := playerTurn;
      abrMove := None;
      isCapture := false;
      pieceFile := None;
      pieceName := None;
      pieceAbbreviation := None;
      coronationInto := None;
      row := None;
      square := None;
      squarePos := None;
      isCastling := false;
      castlingSide := None;
    }

    /** Every field but `_abr_move` still holds its default. */
    predicate Undecoded()
      reads this
    {
      !isCapture && pieceFile.None? && pieceName.None? && pieceAbbreviation.None? &&
      coronationInto.None? && row.None? && square.None? && squarePos.None? && !isCastling &&
      castlingSide.None?
    }

    /** The fields hold the decoded move `info`. */
    predicate Describes(info: MoveInfo)
      reads this
    {
      abrMove == Some(info.abrMove) && pieceName == Some(info.kind) &&
      pieceAbbreviation == Some(KindLetter(info.kind)) && isCastling == info.isCastling &&
      square == Some(info.target.square) && squarePos == Some(info.target.squarePos) &&
      row == info.target.row && pieceFile == info.target.pieceFile &&
      castlingSide == info.target.castlingSide && coronationInto == info.coronationInto &&
      isCapture == info.isCapture
    }

    /**
     * `PieceMove(move, board, player_turn)`: the defaults, then
     * `_set_abreviate_move` and `_set_move_information`. The board is only read.
     */
    static method New(move: string, board: Board, playerTurn: Color) returns (r: Result<PieceMove>)
      requires board.Valid()
      ensures r.Ok? <==> ParseMove(move, board.View(), playerTurn).Ok?
      ensures r.Err? ==> r.error == ParseMove(move, board.View(), playerTurn).error
      ensures r.Ok? ==> fresh(r.value) && r.value.move == move && r.value.board == board &&
                        r.value.playerTurn == playerTurn &&
                        r.value.Describes(ParseMove(move, board.View(), playerTurn).value)
    {
      ghost var view := board.View();
      var m := new PieceMove(move, board, playerTurn);
      var step := m.SetAbbreviateMove();
      if step.Err? {
        return Err(step.error);
      }
      assert ParseMove(move, view, playerTurn) == DecodeFrom(move, m.abrMove.value, view, playerTurn);
      step := m.SetMoveInformation();
      if step.Err? {
        return Err(step.error);
      }
      return Ok(m);
    }

    /** `_set_abreviate_move`. */
    method SetAbbreviateMove() returns (r: Result<()>)
      requires Undecoded()
      modifies this
      ensures r.Ok? <==> Abbreviate(move).Ok?
      ensures r.Err? ==> r.error == Abbreviate(move).error
      ensures r.Ok? ==> abrMove == Some(Abbreviate(move).value)
      ensures Undecoded()
    {
      var m := RemoveChar(RemoveChar(RemoveChar(RemoveChar(move, 'x'), '+'), '#'), '=');
      if m == "" {
        return Err(IndexError);
      }
      if m[0] == 'P' {
        m := m[1..];
      }
      abrMove := Some(m);
      r := Ok(());
    }

    /** `_set_move_information`: piece, square and position, coronation, capture. */
    method SetMoveInformation() returns (r: Result<()>)
      requires board.Valid() && abrMove.Some? && Undecoded()
      modifies this
      ensures abrMove == old(abrMove)
      ensures r.Ok? <==> DecodeFrom(move, abrMove.value, board.View(), playerTurn).Ok?
      ensures r.Err? ==> r.error == DecodeFrom(move, abrMove.value, board.View(), playerTurn).error
      ensures r.Ok? ==> Describes(DecodeFrom(move, abrMove.value, board.View(), playerTurn).value)
    {
      r := SetPiece();
      if r.Err? {
        return;
      }
      r := SetSquareAndPos();
      if r.Err? {
        return;
      }
      SetCoronation();
      r := SetIsCapture();
    }

    /** `_set_piece`. */
    method SetPiece() returns (r: Result<()>)
      requires abrMove.Some? && Undecoded()
      modifies this
      ensures abrMove == old(abrMove)
      ensures r.Ok? <==> Classify(abrMove.value).Ok?
      ensures r.Err? ==> r.error == Classify(abrMove.value).error
      ensures r.Ok? ==> pieceName == Some(Classify(abrMove.value).value.0) &&
                        pieceAbbreviation == Some(KindLetter(Classify(abrMove.value).value.0)) &&
                        isCastling == Classify(abrMove.value).value.1
      ensures !isCapture && pieceFile.None? && coronationInto.None? && row.None? &&
              square.None? && squarePos.None? && castlingSide.None?
    {
      var abr := abrMove.value;
      if |abr| != 2 && abr == "" {
        return Err(IndexError);
      }
      if |abr| == 2 || IsFileChar(abr[0]) {
        pieceAbbreviation := Some(KindLetter(Pawn));
        pieceName := Some(Pawn);
        return Ok(());
      }
      if abr == "O-O" || abr == "O-O-O" {
        isCastling := true;
        pieceAbbreviation := Some(KindLetter(King));
        pieceName := Some(King);
        return Ok(());
      }
      var found := FirstWithLetter(abr[0]);
      if found.None? {
        return Err(InvalidMoveError);
      }
      pieceAbbreviation := Some(KindLetter(found.value));
      pieceName := found;
      r := Ok(());
    }

    /**
     * `_set_square_and_pos`. For castling, `_get_castleling_square` records
     * the side and gives the square it converts; its `None` for a move that
     * is not exactly "O-O" or "O-O-O" makes the conversion a TypeError.
     */
    method SetSquareAndPos() returns (r: Result<()>)
      requires abrMove.Some? && abrMove.value != "" && pieceName.Some?
      requires !isCapture && pieceFile.None? && coronationInto.None? && row.None? &&
               square.None? && squarePos.None? && castlingSide.None?
      modifies this
      ensures abrMove == old(abrMove) && pieceName == old(pieceName)
      ensures pieceAbbreviation == old(pieceAbbreviation) && isCastling == old(isCastling)
      ensures r.Ok? <==> TargetOf(move, abrMove.value, pieceName.value, playerTurn).Ok?
      ensures r.Err? ==> r.error == TargetOf(move, abrMove.value, pieceName.value, playerTurn).error
      ensures r.Ok? ==>
                var t := TargetOf(move, abrMove.value, pieceName.value, playerTurn).value;
                square == Some(t.square) && squarePos == Some(t.squarePos) && row == t.row &&
                pieceFile == t.pieceFile && castlingSide == t.castlingSide
      ensures !isCapture && coronationInto.None?
    {
      var abr := abrMove.value;
      if abr == "O-O" || abr == "O-O-O" {
        square := Some(abr);
        var castling := CastlingSquare(move, playerTurn);
        if castling.None? {
          return Err(TypeError);
        }
        castlingSide := Some(castling.value.1);
        squarePos := Some(FromAlgebraic(castling.value.0).value);
        return Ok(());
      }
      if |abr| < 2 {
        return Err(IndexError);
      }
      if IsRankChar(abr[1]) && pieceName != Some(Pawn) {
        row := Some(DigitValue(abr[1]) - 1);
      }
      square := Some(abr[|abr| - 2..]);
      if |abr| == 4 {
        if IsFileChar(abr[1]) {
          pieceFile := Some(abr[1]);
        }
      }
      if pieceName == Some(Pawn) {
        if '=' in move {
          pieceFile := Some(abr[0]);
          if 'x' in move {
            square := Some(abr[1..Min(3, |abr|)]);
          } else {
            square := Some(abr[..2]);
          }
        } else {
          pieceFile := Some(abr[0]);
        }
      }
      var pos := FromAlgebraic(square.value);
      if pos.Err? {
        return Err(pos.error);
      }
      squarePos := Some(pos.value);
      r := Ok(());
    }

    /** `_set_coronation`. */
    method SetCoronation()
      requires pieceName.Some? && square.Some? && |square.value| >= 2
      requires abrMove.Some? && abrMove.value != "" && coronationInto.None?
      modifies this
      ensures abrMove == old(abrMove) && pieceName == old(pieceName) && square == old(square)
      ensures pieceAbbreviation == old(pieceAbbreviation) && isCastling == old(isCastling)
      ensures squarePos == old(squarePos) && row == old(row) && pieceFile == old(pieceFile)
      ensures castlingSide == old(castlingSide) && isCapture == old(isCapture)
      ensures coronationInto == Coronation(pieceName.value, square.value, abrMove.value)
    {
      var sq := square.value;
      if pieceName == Some(Pawn) {
        if sq[1] == '8' || sq[1] == '1' {
          var abr := abrMove.value;
          coronationInto := FirstWithLetter(abr[|abr| - 1]);
        }
      }
    }

    /** `_set_is_capture`: only a piece of the other colour on the target counts. */
    method SetIsCapture() returns (r: Result<()>)
      requires board.Valid() && squarePos.Some? && !isCapture
      modifies this
      ensures abrMove == old(abrMove) && pieceName == old(pieceName) && square == old(square)
      ensures pieceAbbreviation == old(pieceAbbreviation) && isCastling == old(isCastling)
      ensures squarePos == old(squarePos) && row == old(row) && pieceFile == old(pieceFile)
      ensures castlingSide == old(castlingSide) && coronationInto == old(coronationInto)
      ensures r.Ok? <==> CaptureAt(board.View(), squarePos.value, playerTurn).Ok?
      ensures r.Err? ==> r.error == IndexError
      ensures isCapture == (r.Ok? && CaptureAt(board.View(), squarePos.value, playerTurn).value)
    {
      var pos := squarePos.value;
      var entry := board.GetSquareOrPiece(pos.0, pos.1);
      if entry.Err? {
        return Err(entry.error);
      }
      if entry.value.At? {
        if entry.value.piece.color != playerTurn {
          isCapture := true;
        }
      }
      r := Ok(());
    }

    /**
     * `move_to_compare`: for a promoting pawn the move without check and
     * mate marks (the form the pawn's own move list uses), else the square.
     */
    function MoveToCompare(): (s: Option<string>)
      reads this
      ensures pieceName == Some(Pawn) && coronationInto.Some? ==>
                s.Some? && '+' !in s.value && '#' !in s.value
      ensures !(pieceName == Some(Pawn) && coronationInto.Some?) ==> s == square
    {
      if pieceName == Some(Pawn) && coronationInto.Some? then Some(RemoveChar(RemoveChar(move, '+'), '#'))
      else square
    }
  }

  predicate IsView(view: seq<seq<Cell>>)
  {
    |view| == 8 && forall i :: 0 <= i < 8 ==> |view[i]| == 8
  }
}
