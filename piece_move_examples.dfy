/**
 * Worked decodings of `PieceMove`, one per kind of move string the engine's
 * own move lists and the unit tests use, and the facts that tie the
 * decoded fields to the board and to `move_to_compare`.
 */
module SanMoveExamples {
  import opened Python
  import opened Notation
  import opened SanMove


  /** "e4": a pawn move to e4 from the e-file. */
  lemma PawnPush(view: seq<seq<Cell>>, turn: Color)
    requires IsView(view)
    ensures ParseMove("e4", view, turn).Ok?
    ensures var m := ParseMove("e4", view, turn).value;
            m.kind == Pawn && m.abrMove == "e4" && m.target.square == "e4" &&
            m.target.pieceFile == Some('e') && m.target.squarePos == (3, 4) && !m.isCastling
  {
    PawnPushSteps(turn);
    ParseSteps("e4", "e4", view, turn, Pawn, false, Target("e4", (3, 4), None, Some('e'), None));
  }

  lemma PawnPushSteps(turn: Color)
    ensures Abbreviate("e4") == Ok("e4") && Classify("e4") == Ok((Pawn, false))
    ensures TargetOf("e4", "e4", Pawn, turn) == Ok(Target("e4", (3, 4), None, Some('e'), None))
  {
    StrippedUndecorated("e4");
    AbbreviateOf("e4", "e4");
    assert SquareText("e4", "e4", Pawn) == "e4"[|"e4"| - 2..] == "e4";
    assert FromAlgebraic("e4") == Ok((3, 4));
    assert RowHint("e4", Pawn) == None;
    assert FileHint("e4", Pawn) == Some('e');
  }

  /** "Ngf3": a knight to f3, the one on the g-file. */
  lemma KnightWithFile(view: seq<seq<Cell>>, turn: Color)
    requires IsView(view)
    ensures ParseMove("Ngf3", view, turn).Ok?
    ensures var m := ParseMove("Ngf3", view, turn).value;
            m.kind == Knight && m.abrMove == "Ngf3" && m.target.square == "f3" &&
            m.target.pieceFile == Some('g') && m.target.row.None?
  {
    KnightWithFileClassified();
    KnightWithFileSteps(turn);
    ParseSteps("Ngf3", "Ngf3", view, turn, Knight, false, Target("f3", (2, 5), None, Some('g'), None));
  }

  lemma KnightWithFileClassified()
    ensures Abbreviate("Ngf3") == Ok("Ngf3") && Classify("Ngf3") == Ok((Knight, false))
  {
    StrippedUndecorated("Ngf3");
    AbbreviateOf("Ngf3", "Ngf3");
    assert |"Ngf3"| == 4 && "Ngf3"[0] == 'N' && !IsFileChar('N') && !IsCastlingText("Ngf3");
  }

  lemma KnightWithFileSteps(turn: Color)
    ensures TargetOf("Ngf3", "Ngf3", Knight, turn) == Ok(Target("f3", (2, 5), None, Some('g'), None))
  {
    assert "Ngf3"[|"Ngf3"| - 2..] == "f3";
    assert SquareText("Ngf3", "Ngf3", Knight) == "f3";
    assert FromAlgebraic("f3") == Ok((2, 5));
    assert RowHint("Ngf3", Knight) == None;
    assert FileHint("Ngf3", Knight) == Some('g');
  }

  /** "R1e2": a rook to e2, the one on the first rank. */
  lemma RookWithRank(view: seq<seq<Cell>>, turn: Color)
    requires IsView(view)
    ensures ParseMove("R1e2", view, turn).Ok?
    ensures var m := ParseMove("R1e2", view, turn).value;
            m.kind == Rook && m.target.square == "e2" && m.target.row == Some(0) &&
            m.target.pieceFile.None?
  {
    RookWithRankClassified();
    RookWithRankSteps(turn);
    ParseSteps("R1e2", "R1e2", view, turn, Rook, false, Target("e2", (1, 4), Some(0), None, None));
  }

  lemma RookWithRankClassified()
    ensures Abbreviate("R1e2") == Ok("R1e2") && Classify("R1e2") == Ok((Rook, false))
  {
    StrippedUndecorated("R1e2");
    AbbreviateOf("R1e2", "R1e2");
    assert |"R1e2"| == 4 && "R1e2"[0] == 'R' && !IsFileChar('R') && !IsCastlingText("R1e2");
  }

  lemma RookWithRankSteps(turn: Color)
    ensures TargetOf("R1e2", "R1e2", Rook, turn) == Ok(Target("e2", (1, 4), Some(0), None, None))
  {
    assert "R1e2"[|"R1e2"| - 2..] == "e2";
    assert SquareText("R1e2", "R1e2", Rook) == "e2";
    assert FromAlgebraic("e2") == Ok((1, 4));
    assert RowHint("R1e2", Rook) == Some(0);
    assert FileHint("R1e2", Rook) == None;
  }

  /** "jkn": no piece has the letter 'j'. */
  lemma UnknownPiece(view: seq<seq<Cell>>, turn: Color)
    requires IsView(view)
    ensures ParseMove("jkn", view, turn) == Err(InvalidMoveError)
  {
    StrippedUndecorated("jkn");
    AbbreviateOf("jkn", "jkn");
    assert |"jkn"| == 3 && "jkn"[0] == 'j' && !IsFileChar('j') && !IsCastlingText("jkn");
    assert Classify("jkn") == Err(InvalidMoveError);
  }

  /**
   * "O-O" and "O-O-O": the king, castling, to g1/g8 or c1/c8. The `square`
   * field keeps the castling text itself.
   */
  lemma Castling(view: seq<seq<Cell>>, turn: Color, move: string)
    requires IsView(view) && IsCastlingText(move)
    ensures ParseMove(move, view, turn).Ok?
    ensures var m := ParseMove(move, view, turn).value;
            m.kind == King && m.isCastling && m.abrMove == move && m.target.square == move &&
            m.target.castlingSide == Some(if move == "O-O" then KingSide else QueenSide) &&
            m.target.squarePos == (HomeRow(turn), if move == "O-O" then 6 else 2)
  {
    CastlingSteps(move, turn);
    ParseSteps(move, move, view, turn, King, true,
               Target(move, (HomeRow(turn), if move == "O-O" then 6 else 2), None, None,
                      Some(if move == "O-O" then KingSide else QueenSide)));
  }

  lemma CastlingSteps(move: string, turn: Color)
    requires IsCastlingText(move)
    ensures Abbreviate(move) == Ok(move) && Classify(move) == Ok((King, true))
    ensures TargetOf(move, move, King, turn) ==
              Ok(Target(move, (HomeRow(turn), if move == "O-O" then 6 else 2), None, None,
                        Some(if move == "O-O" then KingSide else QueenSide)))
  {
    AbbreviateUndecorated(move);
  }

  /** A castling move with a check mark: `_get_castleling_square` gives `None`. */
  lemma CastlingWithCheck(view: seq<seq<Cell>>, turn: Color)
    requires IsView(view)
    ensures ParseMove("O-O+", view, turn) == Err(TypeError)
  {
    CastlingWithCheckAbbreviates();
    assert Classify("O-O") == Ok((King, true));
    assert !IsCastlingText("O-O+");
    assert TargetOf("O-O+", "O-O", King, turn) == Err(TypeError);
  }

  lemma CastlingWithCheckAbbreviates()
    ensures Abbreviate("O-O+") == Ok("O-O")
  {
    assert "O-O+" == "O-O" + "+";
    StrippedAppend("O-O", "+");
    StrippedDecoration('+');
    StrippedUndecorated("O-O");
    AbbreviateOf("O-O+", "O-O");
  }

  /** A decoding whose steps are known: the abbreviation, the piece and the target. */
  lemma ParseSteps(move: string, abr: string, view: seq<seq<Cell>>, turn: Color,
                   kind: Kind, castling: bool, t: Target)
    requires IsView(view) && abr != ""
    requires Abbreviate(move) == Ok(abr) && Classify(abr) == Ok((kind, castling))
    requires TargetOf(move, abr, kind, turn) == Ok(t) && OnBoard(t.squarePos.0, t.squarePos.1)
    ensures ParseMove(move, view, turn) ==
              Ok(MoveInfo(abr, kind, castling, t, Coronation(kind, t.square, abr),
                          CaptureAt(view, t.squarePos, turn).value))
  {
  }

  /** The check and mate marks a move may end with. */
  predicate IsCheckMark(suffix: string)
  {
    suffix == "" || suffix == "+" || suffix == "#"
  }

  lemma StrippedSuffix(body: string, suffix: string)
    requires IsCheckMark(suffix)
    ensures Stripped(body + suffix) == Stripped(body)
  {
    StrippedAppend(body, suffix);
    if suffix != "" {
      assert suffix == [suffix[0]];
      StrippedDecoration(suffix[0]);
    }
  }

  lemma LetterStripped(letter: char)
    requires KindOfLetter(letter).Some?
    ensures Stripped([letter]) == [letter]
  {
    StrippedUndecorated([letter]);
  }

  lemma PushStrippedParts(f: char, r: char, letter: char)
    requires KindOfLetter(letter).Some?
    requires IsFileChar(f) && IsRankChar(r)
    ensures Stripped([f, r] + ['='] + [letter]) == [f, r, letter]
  {
    StrippedAppend([f, r] + ['='], [letter]);
    StrippedAppend([f, r], ['=']);
    StrippedUndecorated([f, r]);
    LetterStripped(letter);
    StrippedDecoration('=');
  }

  lemma PushStripped(f: char, r: char, letter: char)
    requires KindOfLetter(letter).Some?
    requires IsFileChar(f) && IsRankChar(r)
    ensures Stripped([f, r, '=', letter]) == [f, r, letter]
  {
    PushStrippedParts(f, r, letter);
    assert [f, r, '=', letter] == [f, r] + ['='] + [letter];
  }

  lemma CaptureStrippedParts(f: char, g: char, r: char, letter: char)
    requires KindOfLetter(letter).Some?
    requires IsFileChar(f) && IsFileChar(g) && IsRankChar(r)
    ensures Stripped([f] + ['x'] + [g, r, '=', letter]) == [f, g, r, letter]
  {
    StrippedAppend([f] + ['x'], [g, r, '=', letter]);
    StrippedAppend([f], ['x']);
    StrippedUndecorated([f]);
    StrippedDecoration('x');
    PushStripped(g, r, letter);
  }

  lemma CaptureStripped(f: char, g: char, r: char, letter: char)
    requires KindOfLetter(letter).Some?
    requires IsFileChar(f) && IsFileChar(g) && IsRankChar(r)
    ensures Stripped([f, 'x', g, r, '=', letter]) == [f, g, r, letter]
  {
    CaptureStrippedParts(f, g, r, letter);
    assert [f, 'x', g, r, '=', letter] == [f] + ['x'] + [g, r, '=', letter];
  }

  lemma PushAbbreviated(f: char, r: char, letter: char, suffix: string)
    requires IsFileChar(f) && IsRankChar(r) && KindOfLetter(letter).Some? && IsCheckMark(suffix)
    ensures Abbreviate([f, r, '=', letter] + suffix) == Ok([f, r, letter])
  {
    StrippedSuffix([f, r, '=', letter], suffix);
    PushStripped(f, r, letter);
    AbbreviateOf([f, r, '=', letter] + suffix, [f, r, letter]);
  }

  lemma PushMarks(f: char, r: char, letter: char, suffix: string)
    requires IsFileChar(f) && IsRankChar(r) && KindOfLetter(letter).Some? && IsCheckMark(suffix)
    ensures '=' in [f, r, '=', letter] + suffix
    ensures 'x' !in [f, r, '=', letter] + suffix
  {
    var move := [f, r, '=', letter] + suffix;
    assert move[2] == '=';
    assert forall i :: 0 <= i < |move| ==> move[i] in {f, r, '=', letter, '+', '#'};
  }

  lemma PushTargeted(f: char, r: char, letter: char, suffix: string, turn: Color)
    requires IsFileChar(f) && IsRankChar(r) && KindOfLetter(letter).Some? && IsCheckMark(suffix)
    ensures TargetOf([f, r, '=', letter] + suffix, [f, r, letter], Pawn, turn) ==
              Ok(Target([f, r], (r as int - '1' as int, f as int - 'a' as int), None, Some(f), None))
  {
    var move := [f, r, '=', letter] + suffix;
    var abr := [f, r, letter];
    PushMarks(f, r, letter, suffix);
    assert abr[..2] == [f, r];
    assert SquareText(move, abr, Pawn) == [f, r];
  }

  /**
   * A promotion push `<square>=<letter>`, as the pawn's move list writes it,
   * with or without a check mark: a pawn move from the square's file to the
   * square, promoting into the piece of that letter.
   */
  lemma PromotionPush(view: seq<seq<Cell>>, turn: Color, f: char, r: char, letter: char, suffix: string)
    requires IsView(view) && IsFileChar(f) && (r == '8' || r == '1')
    requires KindOfLetter(letter).Some? && IsCheckMark(suffix)
    ensures ParseMove([f, r, '=', letter] + suffix, view, turn).Ok?
    ensures var m := ParseMove([f, r, '=', letter] + suffix, view, turn).value;
            m.kind == Pawn && !m.isCastling && m.abrMove == [f, r, letter] &&
            m.target.square == [f, r] && m.target.pieceFile == Some(f) &&
            m.target.squarePos == (r as int - '1' as int, f as int - 'a' as int) &&
            m.coronationInto == KindOfLetter(letter)
  {
    var move := [f, r, '=', letter] + suffix;
    var abr := [f, r, letter];
    PushAbbreviated(f, r, letter, suffix);
    assert Classify(abr) == Ok((Pawn, false));
    PushTargeted(f, r, letter, suffix, turn);
    var t := Target([f, r], (r as int - '1' as int, f as int - 'a' as int), None, Some(f), None);
    ParseSteps(move, abr, view, turn, Pawn, false, t);
  }

  lemma CaptureAbbreviated(f: char, g: char, r: char, letter: char, suffix: string)
    requires IsFileChar(f) && IsFileChar(g) && IsRankChar(r)
    requires KindOfLetter(letter).Some? && IsCheckMark(suffix)
    ensures Abbreviate([f, 'x', g, r, '=', letter] + suffix) == Ok([f, g, r, letter])
  {
    StrippedSuffix([f, 'x', g, r, '=', letter], suffix);
    CaptureStripped(f, g, r, letter);
    AbbreviateOf([f, 'x', g, r, '=', letter] + suffix, [f, g, r, letter]);
  }

  lemma CaptureTargeted(f: char, g: char, r: char, letter: char, suffix: string, turn: Color)
    requires IsFileChar(f) && IsFileChar(g) && IsRankChar(r)
    requires KindOfLetter(letter).Some? && IsCheckMark(suffix)
    ensures TargetOf([f, 'x', g, r, '=', letter] + suffix, [f, g, r, letter], Pawn, turn) ==
              Ok(Target([g, r], (r as int - '1' as int, g as int - 'a' as int), None, Some(f), None))
  {
    var move := [f, 'x', g, r, '=', letter] + suffix;
    var abr := [f, g, r, letter];
    assert move[1] == 'x' && move[4] == '=';
    assert abr[1..Min(3, |abr|)] == [g, r];
    assert SquareText(move, abr, Pawn) == [g, r];
  }

  /**
   * A capturing promotion `<file>x<square>=<letter>`, as the pawn's move list
   * writes it: a pawn from that file to the square, promoting.
   */
  lemma PromotionCapture(view: seq<seq<Cell>>, turn: Color, f: char, g: char, r: char, letter: char, suffix: string)
    requires IsView(view) && IsFileChar(f) && IsFileChar(g) && (r == '8' || r == '1')
    requires KindOfLetter(letter).Some? && IsCheckMark(suffix)
    ensures ParseMove([f, 'x', g, r, '=', letter] + suffix, view, turn).Ok?
    ensures var m := ParseMove([f, 'x', g, r, '=', letter] + suffix, view, turn).value;
            m.kind == Pawn && !m.isCastling && m.abrMove == [f, g, r, letter] &&
            m.target.square == [g, r] && m.target.pieceFile == Some(f) &&
            m.target.squarePos == (r as int - '1' as int, g as int - 'a' as int) &&
            m.coronationInto == KindOfLetter(letter)
  {
    var move := [f, 'x', g, r, '=', letter] + suffix;
    var abr := [f, g, r, letter];
    CaptureAbbreviated(f, g, r, letter, suffix);
    assert Classify(abr) == Ok((Pawn, false));
    CaptureTargeted(f, g, r, letter, suffix, turn);
    var t := Target([g, r], (r as int - '1' as int, g as int - 'a' as int), None, Some(f), None);
    ParseSteps(move, abr, view, turn, Pawn, false, t);
  }

  /** Removing the check mark from a promotion push leaves the push. */
  lemma PushWithoutMark(f: char, r: char, letter: char, suffix: string)
    requires IsFileChar(f) && IsRankChar(r) && KindOfLetter(letter).Some? && IsCheckMark(suffix)
    ensures RemoveChar(RemoveChar([f, r, '=', letter] + suffix, '+'), '#') == [f, r, '=', letter]
  {
    var body := [f, r, '=', letter];
    assert '+' !in body && '#' !in body;
    RemoveCharAppend(body, suffix, '+');
    RemoveCharAppend(body, RemoveChar(suffix, '+'), '#');
    if suffix != "" {
      assert suffix == [suffix[0]];
      assert suffix[0] == '+' || suffix[0] == '#';
      assert suffix[1..] == "";
    }
  }

  /**
   * `move_to_compare` of a decoded promotion is the move without its check
   * mark: the very string the pawn's move list holds.
   */
  lemma PromotionCompare(pm: PieceMove, view: seq<seq<Cell>>, f: char, r: char, letter: char, suffix: string)
    requires IsView(view) && IsFileChar(f) && (r == '8' || r == '1')
    requires KindOfLetter(letter).Some? && IsCheckMark(suffix)
    requires pm.move == [f, r, '=', letter] + suffix
    requires ParseMove(pm.move, view, pm.playerTurn).Ok?
    requires pm.Describes(ParseMove(pm.move, view, pm.playerTurn).value)
    ensures pm.MoveToCompare() == Some([f, r, '=', letter])
  {
    PromotionPush(view, pm.playerTurn, f, r, letter, suffix);
    PushWithoutMark(f, r, letter, suffix);
  }

  /** Any other decoded move compares as its target square. */
  lemma SquareCompare(pm: PieceMove, view: seq<seq<Cell>>)
    requires IsView(view)
    requires ParseMove(pm.move, view, pm.playerTurn).Ok?
    requires pm.Describes(ParseMove(pm.move, view, pm.playerTurn).value)
    requires ParseMove(pm.move, view, pm.playerTurn).value.coronationInto.None?
    ensures pm.MoveToCompare() == Some(ParseMove(pm.move, view, pm.playerTurn).value.target.square)
  {
  }

  /** The capture flag of a decoded move says whether its target holds an enemy piece. */
  lemma CaptureFlag(move: string, view: seq<seq<Cell>>, turn: Color)
    requires IsView(view) && ParseMove(move, view, turn).Ok?
    ensures var m := ParseMove(move, view, turn).value;
            OnBoard(m.target.squarePos.0, m.target.squarePos.1) ==>
              (m.isCapture <==> view[m.target.squarePos.0][m.target.squarePos.1].Occ? &&
                                view[m.target.squarePos.0][m.target.squarePos.1].color != turn)
  {
    var m := ParseMove(move, view, turn).value;
    var (row, column) := m.target.squarePos;
    if OnBoard(row, column) {
      assert CellAt(view, row, column) == Ok(view[row][column]);
      if view[row][column].Occ? && view[row][column].color != turn {
        assert view[row][column] == Occ(view[row][column].kind, turn.Opposite());
      }
    }
  }
}
