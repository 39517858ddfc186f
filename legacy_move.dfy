/**
 * The older `PieceMove` (game/piece_move.py): the first decoder of a move in
 * Standard Algebraic Notation. It drops only the capture and check marks,
 * reads a two-character move as a pawn move, lets the first letter name the
 * piece otherwise, and takes the last two characters as the target square.
 * Like the current decoder it never checks legality.
 */
module LegacyMove {
  import opened Python
  import opened Notation
  import SanMove

  // ------------------------------------------------------- decoration

  /** `move.replace('x', '').replace('+', '')`. */
  function Abbreviate(move: string): (r: string)
    ensures 'x' !in r && '+' !in r && |r| <= |move|
    ensures forall c :: c != 'x' && c != '+' ==> (c in r <==> c in move)
  {
    RemoveChar(RemoveChar(move, 'x'), '+')
  }

  /** Only the two marks go: a move without them is its own abbreviation. */
  lemma AbbreviateKeepsPlainMoves(move: string)
    requires 'x' !in move && '+' !in move
    ensures Abbreviate(move) == move
  {
  }

  /** The abbreviation works character by character: it keeps the order of what it keeps. */
  lemma AbbreviateAppend(a: string, b: string)
    ensures Abbreviate(a + b) == Abbreviate(a) + Abbreviate(b)
  {
    RemoveCharAppend(a, b, 'x');
    RemoveCharAppend(RemoveChar(a, 'x'), RemoveChar(b, 'x'), '+');
  }

  /** Abbreviating twice changes nothing more. */
  lemma AbbreviateIdempotent(move: string)
    ensures Abbreviate(Abbreviate(move)) == Abbreviate(move)
  {
    AbbreviateKeepsPlainMoves(Abbreviate(move));
  }

  // ---------------------------------------------------- what is decoded

  /** `s[-2:]`: the last two characters, or the whole of a shorter string. */
  function LastTwo(s: string): (r: string)
    ensures |s| >= 2 ==> |r| == 2 && s == s[..|s| - 2] + r
    ensures |s| < 2 ==> r == s
  {
    if |s| >= 2 then s[|s| - 2..] else s
  }

  /** The file that `set_square_and_pos` records: the second character of a four-character move, when it is a file. */
  function FileOf(abr: string): (file: Option<char>)
    ensures file.Some? <==> |abr| == 4 && SanMove.IsFileChar(abr[1])
    ensures file.Some? ==> file.value == abr[1]
  {
    if |abr| == 4 && SanMove.IsFileChar(abr[1]) then Some(abr[1]) else None
  }

  /**
   * `set_piece(look_for_pawn)`, as (piece, is castling). A two-character move
   * (when pawns are looked for) names the pawn and a castling string the king,
   * but the letter search over `PieceName` runs after both and overrides them.
   * The first character is read even then, so an empty move is an IndexError;
   * nothing found is a ValueError.
   */
  function SetPieceResult(abr: string, lookForPawn: bool): (r: Result<(Kind, bool)>)
    ensures abr == "" ==> r == Err(IndexError)
    ensures abr != "" ==>
              (r.Err? <==> !(lookForPawn && |abr| == 2) && !SanMove.IsCastlingText(abr) && KindOfLetter(abr[0]).None?)
    ensures abr != "" && r.Err? ==> r.error == ValueError
    ensures r.Ok? ==> (r.value.1 <==> SanMove.IsCastlingText(abr))
    ensures r.Ok? && KindOfLetter(abr[0]).Some? ==> r.value.0 == KindOfLetter(abr[0]).value
    ensures r.Ok? && KindOfLetter(abr[0]).None? ==> r.value.0 == if SanMove.IsCastlingText(abr) then King else Pawn
  {
    var castling := SanMove.IsCastlingText(abr);
    if abr == "" then Err(IndexError)
    else match KindOfLetter(abr[0])
      case Some(k) => Ok((k, castling))
      case None =>
        if castling then Ok((King, true))
        else if lookForPawn && |abr| == 2 then Ok((Pawn, false))
        else Err(ValueError)
  }

  /** The fields a decoded move ends with. */
  datatype Decoded = Decoded(abrMove: string, kind: Kind, isCastling: bool, castlingSide: Option<RookSide>,
                             pieceFile: Option<char>, square: string)

  /**
   * `PieceMove(move, player_turn)`. A two-character abbreviation is a pawn
   * move whose file is its first character (a ValueError when that is not a
   * file); any other goes through `set_piece` and `set_square_and_pos`. The
   * castling side is read off the move as given, and the castling square is
   * replaced by the last two characters.
   */
  function Parse(move: string, turn: Color): (r: Result<Decoded>)
    ensures r.Ok? ==> r.value.abrMove == Abbreviate(move) && r.value.square == LastTwo(Abbreviate(move))
    ensures |Abbreviate(move)| == 2 ==>
              (r.Ok? <==> SanMove.IsFileChar(Abbreviate(move)[0])) &&
              (r.Err? ==> r.error == ValueError) &&
              (r.Ok? ==> r.value.kind == Pawn && r.value.pieceFile == Some(Abbreviate(move)[0]))
    ensures |Abbreviate(move)| != 2 ==>
              (r.Ok? <==> SetPieceResult(Abbreviate(move), true).Ok?) &&
              (r.Err? ==> r.error == SetPieceResult(Abbreviate(move), true).error) &&
              (r.Ok? ==> r.value.kind == SetPieceResult(Abbreviate(move), true).value.0 &&
                         r.value.pieceFile == FileOf(Abbreviate(move)))
  {
    var abr := Abbreviate(move);
    if |abr| == 2 then
      if SanMove.IsFileChar(abr[0]) then Ok(Decoded(abr, Pawn, false, None, Some(abr[0]), abr))
      else Err(ValueError)
    else
      var found :- SetPieceResult(abr, true);
      var side := if found.1 then SideOf(move, turn) else None;
      Ok(Decoded(abr, found.0, found.1, side, FileOf(abr), LastTwo(abr)))
  }

  /** The side `get_castleling_square` records: only for the exact strings "O-O" and "O-O-O". */
  function SideOf(move: string, turn: Color): (side: Option<RookSide>)
    ensures side.Some? <==> SanMove.IsCastlingText(move)
  {
    match SanMove.CastlingSquare(move, turn)
    case None => None
    case Some(found) => Some(found.1)
  }

  // -------------------------------------------------- decoding examples

  /** A file and a rank make a pawn move to that square, from that file (`e4`). */
  lemma PawnMoveDecoded(file: char, rank: char, turn: Color)
    requires SanMove.IsFileChar(file) && SanMove.IsRankChar(rank)
    ensures Parse([file, rank], turn) == Ok(Decoded([file, rank], Pawn, false, None, Some(file), [file, rank]))
  {
    AbbreviateKeepsPlainMoves([file, rank]);
  }

  /** Two characters that do not start with a file are refused. */
  lemma TwoCharactersNeedAFile(move: string, turn: Color)
    requires |move| == 2 && 'x' !in move && '+' !in move && !SanMove.IsFileChar(move[0])
    ensures Parse(move, turn) == Err(ValueError)
  {
    AbbreviateKeepsPlainMoves(move);
  }

  /** A character followed by the capture mark abbreviates to the character. */
  lemma AbbreviateMark(c: char)
    requires c != 'x' && c != '+'
    ensures Abbreviate([c, 'x']) == [c]
  {
    assert [c, 'x'][1..] == ['x'] && ['x'][1..] == [];
    assert RemoveChar([c, 'x'], 'x') == [c];
    assert [c][1..] == [];
  }

  /** A piece letter and a square (`Ne4`): that piece, to that square, with no file. */
  lemma PieceMoveDecoded(k: Kind, square: string, turn: Color)
    requires IsSquareName(square)
    ensures Parse([KindLetter(k)] + square, turn) ==
            Ok(Decoded([KindLetter(k)] + square, k, false, None, None, square))
  {
    var m := [KindLetter(k)] + square;
    assert m == [KindLetter(k), square[0], square[1]];
    AbbreviateKeepsPlainMoves(m);
    assert |m| == 3 && !SanMove.IsCastlingText(m);
    assert KindOfLetter(m[0]) == Some(k);
    assert SetPieceResult(m, true) == Ok((k, false));
    assert FileOf(m) == None && LastTwo(m) == square;
  }

  /** A piece letter, a file and a square (`Ngf3`): the file is recorded. */
  lemma DisambiguatedMoveDecoded(k: Kind, file: char, square: string, turn: Color)
    requires SanMove.IsFileChar(file) && IsSquareName(square)
    ensures Parse([KindLetter(k), file] + square, turn) ==
            Ok(Decoded([KindLetter(k), file] + square, k, false, None, Some(file), square))
  {
    var m := [KindLetter(k), file] + square;
    AbbreviateKeepsPlainMoves(m);
    assert LastTwo(m) == square;
  }

  /** A capture mark is dropped before decoding (`Nxe4` decodes as `Ne4`). */
  lemma CaptureMarkIgnored(k: Kind, square: string, turn: Color)
    requires IsSquareName(square)
    ensures Parse([KindLetter(k), 'x'] + square, turn) == Parse([KindLetter(k)] + square, turn)
  {
    var marked, plain := [KindLetter(k), 'x'] + square, [KindLetter(k)] + square;
    AbbreviateAppend([KindLetter(k), 'x'], square);
    AbbreviateAppend([KindLetter(k)], square);
    AbbreviateMark(KindLetter(k));
    assert marked[2] == plain[1] == square[0] != '-';
    SameAbbreviationSameParse(marked, plain, turn);
  }

  /** Outside castling, decoding depends on the abbreviation alone. */
  lemma SameAbbreviationSameParse(a: string, b: string, turn: Color)
    requires Abbreviate(a) == Abbreviate(b) && !SanMove.IsCastlingText(a) && !SanMove.IsCastlingText(b)
    ensures Parse(a, turn) == Parse(b, turn)
  {
    assert SideOf(a, turn) == None == SideOf(b, turn);
  }

  /**
   * A pawn capture (`exd5`) abbreviates to three characters starting with a
   * file, which no piece letter matches: the older decoder refuses it.
   */
  lemma PawnCaptureRefused(file: char, square: string, turn: Color)
    requires SanMove.IsFileChar(file) && IsSquareName(square)
    ensures Parse([file, 'x'] + square, turn) == Err(ValueError)
  {
    var abr := [file] + square;
    AbbreviateAppend([file, 'x'], square);
    AbbreviateKeepsPlainMoves(square);
    AbbreviateMark(file);
    assert Abbreviate([file, 'x'] + square) == abr;
    assert |abr| == 3 && abr[0] == file && !SanMove.IsCastlingText(abr);
    assert KindOfLetter(file).None?;
  }

  /** A first letter that names no piece is a ValueError (`jkn`). */
  lemma UnknownLetterRefused(turn: Color)
    ensures Parse("jkn", turn) == Err(ValueError)
  {
    AbbreviateKeepsPlainMoves("jkn");
  }

  // ------------------------------------------------------------ castling

  /**
   * Castling is decoded as a king move with the side recorded, but the square
   * `get_castleling_square` computes is overwritten by the last two characters
   * of the abbreviation: "-O" for both sides.
   */
  lemma CastlingSquareLost(turn: Color)
    ensures Parse("O-O", turn) == Ok(Decoded("O-O", King, true, Some(KingSide), None, "-O"))
    ensures Parse("O-O-O", turn) == Ok(Decoded("O-O-O", King, true, Some(QueenSide), None, "-O"))
  {
    AbbreviateKeepsPlainMoves("O-O");
    AbbreviateKeepsPlainMoves("O-O-O");
    assert LastTwo("O-O") == "-O";
    assert LastTwo("O-O-O") == "-O";
  }

  /**
   * The decoder with the castling square kept: a castling abbreviation
   * (decorated or not) gets the king's target square and side from
   * `get_castleling_square`, every other move decodes as before.
   */
  function ParseFixed(move: string, turn: Color): (r: Result<Decoded>)
  {
    var abr := Abbreviate(move);
    if SanMove.IsCastlingText(abr) then
      var target := SanMove.CastlingSquare(abr, turn).value;
      Ok(Decoded(abr, King, true, Some(target.1), None, target.0))
    else Parse(move, turn)
  }

  /** With the fix, castling moves the king to g1/g8 (king side) or c1/c8 (queen side). */
  lemma FixedCastlingSquare(move: string, turn: Color)
    requires SanMove.IsCastlingText(Abbreviate(move))
    ensures ParseFixed(move, turn).Ok?
    ensures var d := ParseFixed(move, turn).value;
            d.kind == King && d.isCastling && IsSquareName(d.square) &&
            d.square[1] == (if turn == White then '1' else '8') &&
            (d.castlingSide == Some(KingSide) <==> d.square[0] == 'g') &&
            (d.castlingSide == Some(QueenSide) <==> d.square[0] == 'c')
  {
  }

  /** The fix changes nothing but castling. */
  lemma FixedAgreesOffCastling(move: string, turn: Color)
    requires !SanMove.IsCastlingText(Abbreviate(move))
    ensures ParseFixed(move, turn) == Parse(move, turn)
  {
  }

  // ------------------------------------------------------------ the class

  /** `PieceMove`: the decoded move, filled in step by step by the constructor. */
  class PieceMove {
    const move: string
    const playerTurn: Color
    /** `_abr_move`. */
    const abrMove: string
    /** `is_castleling` / `castleling_side`. */
    var isCastling: bool
    var castlingSide: Option<RookSide>
    var pieceAbbreviation: Option<char>
    var piece: Option<Kind>
    var pieceFile: Option<char>
    var square: Option<string>

    /** The field defaults and `_abr_move`, as `__init__` sets them before decoding. */
    constructor (move: string, playerTurn: Color)
      ensures Undecoded()
      ensures this.move == move && this.playerTurn == playerTurn && abrMove == Abbreviate(move)
    {
      this.move := move;
      this.playerTurn := playerTurn;
      abrMove := RemoveChar(RemoveChar(move, 'x'), '+');
      isCastling := false;
      castlingSide := None;
      pieceAbbreviation := None;
      piece := None;
      pieceFile := None;
      square := None;
    }

    predicate Undecoded()
      reads this
    {
      !isCastling && castlingSide.None? && pieceAbbreviation.None? && piece.None? &&
      pieceFile.None? && square.None?
    }

    /** The fields hold the decoded move `d`. */
    predicate Describes(d: Decoded)
      reads this
    {
      abrMove == d.abrMove && piece == Some(d.kind) && pieceAbbreviation == Some(KindLetter(d.kind)) &&
      isCastling == d.isCastling && castlingSide == d.castlingSide && pieceFile == d.pieceFile &&
      square == Some(d.square)
    }

    /** `PieceMove(move, player_turn)`: the defaults, then `set_move_information`. */
    static method New(move: string, playerTurn: Color) returns (r: Result<PieceMove>)
      ensures r.Ok? <==> Parse(move, playerTurn).Ok?
      ensures r.Err? ==> r.error == Parse(move, playerTurn).error
      ensures r.Ok? ==> fresh(r.value) && r.value.move == move && r.value.playerTurn == playerTurn &&
                        r.value.Describes(Parse(move, playerTurn).value)
    {
      var m := new PieceMove(move, playerTurn);
      var step := m.SetMoveInformation();
      if step.Err? {
        return Err(step.error);
      }
      return Ok(m);
    }

    /** `set_move_information`. */
    method SetMoveInformation() returns (r: Result<()>)
      requires abrMove == Abbreviate(move) && Undecoded()
      modifies this
      ensures r.Ok? <==> Parse(move, playerTurn).Ok?
      ensures r.Err? ==> r.error == Parse(move, playerTurn).error
      ensures r.Ok? ==> Describes(Parse(move, playerTurn).value)
    {
      if |abrMove| == 2 {
        if !SanMove.IsFileChar(abrMove[0]) {
          return Err(ValueError);
        }
        piece := Some(Pawn);
        pieceFile := Some(abrMove[0]);
        pieceAbbreviation := Some(KindLetter(Pawn));
        square := Some(abrMove);
        return Ok(());
      }
      var found := SetPiece(true);
      if found.Err? {
        return Err(found.error);
      }
      SetSquareAndPos();
      r := Ok(());
    }

    /** `set_piece(look_for_pawn)`: the pawn and castling tests, then the letter search. */
    method SetPiece(lookForPawn: bool) returns (r: Result<Kind>)
      requires Undecoded()
      modifies this
      ensures r.Ok? <==> SetPieceResult(abrMove, lookForPawn).Ok?
      ensures r.Err? ==> r.error == SetPieceResult(abrMove, lookForPawn).error
      ensures r.Ok? ==> r.value == SetPieceResult(abrMove, lookForPawn).value.0 &&
                        piece == Some(r.value) && pieceAbbreviation == Some(KindLetter(r.value)) &&
                        isCastling == SetPieceResult(abrMove, lookForPawn).value.1
      ensures castlingSide.None? && pieceFile.None? && square.None?
    {
      var found := false;
      if lookForPawn && |abrMove| == 2 {
        pieceAbbreviation := Some('P');
        piece := Some(Pawn);
        found := true;
      }
      if abrMove == "O-O" || abrMove == "O-O-O" {
        isCastling := true;
        pieceAbbreviation := Some('K');
        piece := Some(King);
        found := true;
      }
      if abrMove == "" {
        return Err(IndexError);
      }
      var letter := SanMove.FirstWithLetter(abrMove[0]);
      if letter.Some? {
        pieceAbbreviation := Some(KindLetter(letter.value));
        piece := letter;
        found := true;
      }
      if !found {
        return Err(ValueError);
      }
      r := Ok(piece.value);
    }

    /** `get_castleling_square`: records the side of an exact castling string and gives its square. */
    method GetCastlingSquare() returns (sq: Option<string>)
      modifies this
      ensures sq.Some? <==> SanMove.CastlingSquare(move, playerTurn).Some?
      ensures sq.Some? ==> sq.value == SanMove.CastlingSquare(move, playerTurn).value.0
      ensures castlingSide == if sq.Some? then Some(SanMove.CastlingSquare(move, playerTurn).value.1) else old(castlingSide)
      ensures isCastling == old(isCastling) && piece == old(piece) && pieceAbbreviation == old(pieceAbbreviation)
      ensures pieceFile == old(pieceFile) && square == old(square)
    {
      if move == "O-O" {
        castlingSide := Some(KingSide);
        return Some(if playerTurn == White then "g1" else "g8");
      }
      if move == "O-O-O" {
        castlingSide := Some(QueenSide);
        return Some(if playerTurn == White then "c1" else "c8");
      }
      return None;
    }

    /** `set_square_and_pos`: the castling square (then overwritten), the last two characters, the file. */
    method SetSquareAndPos()
      requires castlingSide.None? && pieceFile.None?
      modifies this
      ensures square == Some(LastTwo(abrMove)) && pieceFile == FileOf(abrMove)
      ensures castlingSide == if SanMove.IsCastlingText(abrMove) then SideOf(move, playerTurn) else None
      ensures isCastling == old(isCastling) && piece == old(piece) && pieceAbbreviation == old(pieceAbbreviation)
    {
      if abrMove == "O-O" || abrMove == "O-O-O" {
        var s := GetCastlingSquare();
        square := s;
      }
      square := Some(LastTwo(abrMove));
      if |abrMove| == 4 && SanMove.IsFileChar(abrMove[1]) {
        pieceFile := Some(abrMove[1]);
      }
    }
  }
}
