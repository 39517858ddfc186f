/**
 * The FEN writer and reader of `GameEncoder` (Forsyth-Edwards Notation,
 * section 16.1 of the PGN Standard). The board is the engine's textual grid:
 * one string per cell, "." for an empty square.
 */
module Fen {
  import opened Python
  import opened Notation

  type Grid = seq<seq<string>>

  /** The `FENInfo` record `parse_fen` returns. */
  datatype FenInfo = FenInfo(
    board: Grid,
    activeColor: Color,
    castlingRights: CastlingRights,
    enPassantTarget: Option<string>,
    halfmoveClock: int,
    fullmoveNumber: int)

  // ------------------------------------------------ writer specification

  /** The digits written for `k` pending empty squares (nothing when there are none). */
  function Flush(k: nat): string
  {
    if k > 0 then NatToString(k) else ""
  }

  /** The FEN text of `k` empty squares followed by `cells`. */
  function EncodeFrom(cells: seq<string>, k: nat): string
    decreases |cells|
  {
    if cells == [] then Flush(k)
    else if cells[0] == "." then EncodeFrom(cells[1..], k + 1)
    else Flush(k) + cells[0] + EncodeFrom(cells[1..], 0)
  }

  /** One row of the piece-placement field: runs of "." become their length. */
  function EncodeRow(row: seq<string>): string { EncodeFrom(row, 0) }

  function EncodeRows(board: Grid): (r: seq<string>)
    ensures |r| == |board| && forall i :: 0 <= i < |board| ==> r[i] == EncodeRow(board[i])
  {
    if board == [] then [] else EncodeRows(board[..|board| - 1]) + [EncodeRow(board[|board| - 1])]
  }

  function ColorField(c: Color): string { if c == White then "w" else "b" }

  /** `en_passant_target or '-'`: None and the empty string are both falsy. */
  function EnPassantField(ep: Option<string>): string
  {
    if ep.None? || ep.value == "" then "-" else ep.value
  }

  /** The piece-placement field: the encoded rows joined with '/'. */
  function Placement(board: Grid): string { Join(EncodeRows(board), "/") }

  /** The six fields, space-separated, stripped. */
  function FenText(placement: string, activeColor: Color, castlingRights: string,
                   enPassantTarget: Option<string>, halfmoveClock: int, fullmoveNumber: int): string
  {
    Strip(" " + Join([placement, ColorField(activeColor), castlingRights,
                      EnPassantField(enPassantTarget), IntToString(halfmoveClock),
                      IntToString(fullmoveNumber)], " "))
  }

  /** The string `create_fen` returns. */
  function FenOf(board: Grid, activeColor: Color, castlingRights: string,
                 enPassantTarget: Option<string>, halfmoveClock: int, fullmoveNumber: int): string
  {
    FenText(Placement(board), activeColor, castlingRights, enPassantTarget, halfmoveClock, fullmoveNumber)
  }

  /** `GameEncoder.create_fen`. */
  /** The row loop of `create_fen`: count runs of ".", flush the count before a piece and at the end. */
  method CreateFenRow(row: seq<string>) returns (fenRow: string)
    ensures fenRow == EncodeRow(row)
  {
    var emptyCount := 0;
    fenRow := "";
    var j := 0;
    while j < |row|
      invariant 0 <= j <= |row|
      invariant fenRow + EncodeFrom(row[j..], emptyCount) == EncodeRow(row)
    {
      assert row[j..][1..] == row[j + 1..];
      if row[j] == "." {
        emptyCount := emptyCount + 1;
      } else {
        if emptyCount > 0 {
          fenRow := fenRow + NatToString(emptyCount);
          emptyCount := 0;
        }
        fenRow := fenRow + row[j];
      }
      j := j + 1;
    }
    if emptyCount > 0 {
      fenRow := fenRow + NatToString(emptyCount);
    }
    assert row[|row|..] == [];
  }

  method CreateFen(board: Grid, activeColor: Color, castlingRights: string,
                   enPassantTarget: Option<string>, halfmoveClock: int, fullmoveNumber: int)
    returns (fen: string)
    ensures fen == FenOf(board, activeColor, castlingRights, enPassantTarget, halfmoveClock, fullmoveNumber)
  {
    var ep := if enPassantTarget.None? || enPassantTarget.value == "" then "-" else enPassantTarget.value;
    var color := if activeColor == White then "w" else "b";
    var fenRows: seq<string> := [];
    var i := 0;
    while i < |board|
      invariant 0 <= i <= |board|
      invariant fenRows == EncodeRows(board[..i])
    {
      var fenRow := CreateFenRow(board[i]);
      assert board[..i + 1][..i] == board[..i];
      assert board[..i + 1][i] == board[i];
      fenRows := fenRows + [fenRow];
      i := i + 1;
    }
    assert board[..|board|] == board;
    var piecePlacement := Join(fenRows, "/");
    fen := Strip(" " + Join([piecePlacement, color, castlingRights, ep,
                             IntToString(halfmoveClock), IntToString(fullmoveNumber)], " "));
  }

  // ------------------------------------------------ reader specification

  /** `['.'] * k`. */
  function Dots(k: nat): (r: seq<string>)
    ensures |r| == k && forall i :: 0 <= i < k ==> r[i] == "."
  {
    if k == 0 then [] else Dots(k - 1) + ["."]
  }

  /** The cells one FEN character stands for. */
  function ExpandChar(c: char): seq<string>
  {
    if IsDigit(c) then Dots(DigitValue(c)) else [[c]]
  }

  /** One row of `parse_fen`'s board, from the characters of one placement field. */
  function ExpandRow(s: string): seq<string>
  {
    if s == "" then [] else ExpandRow(s[..|s| - 1]) + ExpandChar(s[|s| - 1])
  }

  function ExpandRows(rows: seq<string>): (r: Grid)
    ensures |r| == |rows| && forall i :: 0 <= i < |rows| ==> r[i] == ExpandRow(rows[i])
  {
    if rows == [] then [] else ExpandRows(rows[..|rows| - 1]) + [ExpandRow(rows[|rows| - 1])]
  }

  function CastlingFromFen(castlingFen: string): CastlingRights
  {
    CastlingRights('K' in castlingFen, 'Q' in castlingFen, 'k' in castlingFen, 'q' in castlingFen)
  }

  /** The record `parse_fen` builds from its six fields. */
  function ParseFenSpec(fen: string, reversePiecePlacement: bool): Result<FenInfo>
  {
    var parts := SplitWhitespace(fen);
    if |parts| < 5 then Err(IndexError)
    else
      var half := ParseInt(parts[4]);
      if half.Err? then Err(half.error)
      else if |parts| < 6 then Err(IndexError)
      else
        var full := ParseInt(parts[5]);
        if full.Err? then Err(full.error)
        else
          var board := ExpandRows(Split(parts[0], '/'));
          Ok(FenInfo(
            if reversePiecePlacement then Reverse(board) else board,
            if parts[1] == "w" then White else Black,
            CastlingFromFen(parts[2]),
            if parts[3] == "-" then None else Some(parts[3]),
            half.value,
            full.value))
  }

  /** The row loop of `parse_fen`: a digit becomes that many ".", any other character itself. */
  method ParseRow(row: string) returns (boardRow: seq<string>)
    ensures boardRow == ExpandRow(row)
  {
    boardRow := [];
    for j := 0 to |row|
      invariant boardRow == ExpandRow(row[..j])
    {
      assert row[..j + 1][..j] == row[..j];
      var ch := row[j];
      if IsDigit(ch) {
        boardRow := boardRow + Dots(DigitValue(ch));
      } else {
        boardRow := boardRow + [[ch]];
      }
    }
    assert row[..|row|] == row;
  }

  /** The board-building loop of `parse_fen`: one row per '/'-separated field. */
  method ParsePlacement(piecePlacement: string) returns (board: Grid)
    ensures board == ExpandRows(Split(piecePlacement, '/'))
  {
    board := [];
    var rows := Split(piecePlacement, '/');
    for i := 0 to |rows|
      invariant board == ExpandRows(rows[..i])
    {
      var boardRow := ParseRow(rows[i]);
      assert rows[..i + 1][..i] == rows[..i];
      board := board + [boardRow];
    }
    assert rows[..|rows|] == rows;
  }

  /** `GameEncoder.parse_fen`. */
  method ParseFen(fen: string, reversePiecePlacement: bool) returns (r: Result<FenInfo>)
    ensures r == ParseFenSpec(fen, reversePiecePlacement)
  {
    var parts := SplitWhitespace(fen);
    if |parts| < 5 {
      return Err(IndexError);
    }
    var piecePlacement, activeColor, castlingFen, enPassantTarget := parts[0], parts[1], parts[2], parts[3];
    var halfmoveClock := ParseInt(parts[4]);
    if halfmoveClock.Err? {
      return Err(halfmoveClock.error);
    }
    if |parts| < 6 {
      return Err(IndexError);
    }
    var fullmoveNumber := ParseInt(parts[5]);
    if fullmoveNumber.Err? {
      return Err(fullmoveNumber.error);
    }

    var board := ParsePlacement(piecePlacement);
    if reversePiecePlacement {
      board := Reverse(board);
    }
    r := Ok(FenInfo(
      board,
      if activeColor == "w" then White else Black,
      CastlingRights('K' in castlingFen, 'Q' in castlingFen, 'k' in castlingFen, 'q' in castlingFen),
      if enPassantTarget == "-" then None else Some(enPassantTarget),
      halfmoveClock.value,
      fullmoveNumber.value));
  }

  // ---------------------------------------------------------- properties

  /** A cell `parse_fen` can give back: "." or one character that is not a digit, a space or '/'. */
  predicate GoodCell(cell: string)
  {
    cell == "." || (|cell| == 1 && !IsDigit(cell[0]) && !IsSpace(cell[0]) && cell[0] != '/')
  }

  predicate GoodRow(row: seq<string>)
  {
    1 <= |row| <= 9 && forall j :: 0 <= j < |row| ==> GoodCell(row[j])
  }

  predicate NoAdjacentDigits(s: string)
  {
    forall i :: 0 <= i < |s| - 1 ==> !(IsDigit(s[i]) && IsDigit(s[i + 1]))
  }

  lemma FlushShape(k: nat)
    requires k <= 9
    ensures |Flush(k)| <= 1
    ensures k > 0 ==> Flush(k) == [DigitChar(k)]
  {
  }

  /** With rows at most nine wide, no two digits of a row field are adjacent. */
  lemma {:induction false} EncodeFromNoAdjacentDigits(cells: seq<string>, k: nat)
    requires k + |cells| <= 9
    requires forall j :: 0 <= j < |cells| ==> GoodCell(cells[j])
    ensures NoAdjacentDigits(EncodeFrom(cells, k))
    decreases |cells|
  {
    FlushShape(k);
    if cells != [] {
      EncodeFromNoAdjacentDigits(cells[1..], if cells[0] == "." then k + 1 else 0);
      if cells[0] != "." {
        var x, y := Flush(k), EncodeFrom(cells[1..], 0);
        var s := x + cells[0] + y;
        forall i | 0 <= i < |s| - 1 ensures !(IsDigit(s[i]) && IsDigit(s[i + 1])) {
          if i >= |x| + 1 {
            assert s[i] == y[i - |x| - 1] && s[i + 1] == y[i - |x|];
          } else if i == |x| {
            assert s[i] == cells[0][0];
          } else {
            assert s[i + 1] == cells[0][0];
          }
        }
      }
    }
  }

  lemma {:induction false} ExpandAppend(a: string, b: string)
    ensures ExpandRow(a + b) == ExpandRow(a) + ExpandRow(b)
    decreases |b|
  {
    if b == "" {
      assert a + b == a;
    } else {
      var b' := b[..|b| - 1];
      assert (a + b)[..|a + b| - 1] == a + b';
      ExpandAppend(a, b');
    }
  }

  lemma ExpandFlush(k: nat)
    requires k <= 9
    ensures ExpandRow(Flush(k)) == Dots(k)
  {
    if k > 0 {
      assert Flush(k) == [DigitChar(k)];
      assert Flush(k)[..0] == "";
    }
  }

  lemma ExpandCell(cell: string)
    requires GoodCell(cell) && cell != "."
    ensures ExpandRow(cell) == [cell]
  {
    assert cell[..0] == "";
    assert cell == [cell[0]];
  }

  lemma ExpandPieceStep(k: nat, cell: string, rest: string)
    requires k <= 9 && GoodCell(cell) && cell != "."
    ensures ExpandRow(Flush(k) + cell + rest) == Dots(k) + [cell] + ExpandRow(rest)
  {
    ExpandAppend(Flush(k) + cell, rest);
    ExpandAppend(Flush(k), cell);
    ExpandFlush(k);
    ExpandCell(cell);
  }

  lemma ExpandDotStep(cells: seq<string>, k: nat)
    requires cells != [] && cells[0] == "."
    requires ExpandRow(EncodeFrom(cells[1..], k + 1)) == Dots(k + 1) + cells[1..]
    ensures ExpandRow(EncodeFrom(cells, k)) == Dots(k) + cells
  {
    assert EncodeFrom(cells, k) == EncodeFrom(cells[1..], k + 1);
    assert Dots(k + 1) == Dots(k) + [cells[0]];
    assert cells == [cells[0]] + cells[1..];
  }

  lemma ExpandOccupiedStep(cells: seq<string>, k: nat)
    requires k <= 9 && cells != [] && cells[0] != "." && GoodCell(cells[0])
    requires ExpandRow(EncodeFrom(cells[1..], 0)) == Dots(0) + cells[1..]
    ensures ExpandRow(EncodeFrom(cells, k)) == Dots(k) + cells
  {
    var rest := EncodeFrom(cells[1..], 0);
    ExpandPieceStep(k, cells[0], rest);
    SeqRegroup(Dots(k), cells, ExpandRow(rest));
  }

  lemma SeqRegroup(d: seq<string>, cells: seq<string>, e: seq<string>)
    requires cells != [] && e == [] + cells[1..]
    ensures d + [cells[0]] + e == d + cells
  {
    assert [cells[0]] + cells[1..] == cells;
  }

  /** Expanding the run-length text of `k` empty squares and `cells` gives them back. */
  lemma {:induction false} ExpandEncodeFrom(cells: seq<string>, k: nat)
    requires k + |cells| <= 9
    requires forall j :: 0 <= j < |cells| ==> GoodCell(cells[j])
    ensures ExpandRow(EncodeFrom(cells, k)) == Dots(k) + cells
    decreases |cells|
  {
    if cells == [] {
      ExpandFlush(k);
    } else if cells[0] == "." {
      ExpandEncodeFrom(cells[1..], k + 1);
      ExpandDotStep(cells, k);
    } else {
      ExpandEncodeFrom(cells[1..], 0);
      ExpandOccupiedStep(cells, k);
    }
  }

  lemma EncodeRowShape(row: seq<string>)
    requires GoodRow(row)
    ensures EncodeRow(row) != "" && NoSpace(EncodeRow(row)) && '/' !in EncodeRow(row)
    ensures ExpandRow(EncodeRow(row)) == row
  {
    ExpandEncodeFrom(row, 0);
    assert Dots(0) + row == row;
    EncodeFromChars(row, 0);
  }

  lemma {:induction false} EncodeFromChars(cells: seq<string>, k: nat)
    requires forall j :: 0 <= j < |cells| ==> GoodCell(cells[j])
    ensures NoSpace(EncodeFrom(cells, k)) && '/' !in EncodeFrom(cells, k)
    ensures (k > 0 || cells != []) ==> EncodeFrom(cells, k) != ""
    decreases |cells|
  {
    if cells != [] {
      EncodeFromChars(cells[1..], if cells[0] == "." then k + 1 else 0);
    }
  }

  lemma StripPadded(s: string)
    requires s != "" && !IsSpace(s[0]) && !IsSpace(s[|s| - 1])
    ensures Strip(" " + s) == s
  {
    assert (" " + s)[1..] == s;
    assert StripLeft(" " + s) == StripLeft(s) == s;
    assert StripRight(s) == s;
  }

  lemma JoinFirst(parts: seq<string>, sep: string)
    requires |parts| >= 1 && parts[0] != ""
    ensures Join(parts, sep) != "" && Join(parts, sep)[0] == parts[0][0]
  {
  }

  lemma {:induction false} JoinLast(parts: seq<string>, sep: string)
    requires |parts| >= 1 && parts[|parts| - 1] != ""
    ensures Join(parts, sep) != ""
    ensures Join(parts, sep)[|Join(parts, sep)| - 1] == parts[|parts| - 1][|parts[|parts| - 1]| - 1]
  {
    if |parts| > 1 {
      JoinLast(parts[1..], sep);
      assert Join(parts, sep) == parts[0] + sep + Join(parts[1..], sep);
    }
  }

  /** None, "" and "-" are all read back as no en-passant target. */
  function EnPassantBack(ep: Option<string>): Option<string>
  {
    if ep.None? || ep.value == "" || ep.value == "-" then None else ep
  }

  /**
   * Round trip: `parse_fen(create_fen(...), reverse_piece_placement=False)` gives
   * back the board, colour, en-passant target and both counters, and the four
   * castling flags of the castling string.
   */
  lemma FenRoundTrip(board: Grid, activeColor: Color, castlingRights: string,
                     enPassantTarget: Option<string>, halfmoveClock: int, fullmoveNumber: int)
    requires |board| >= 1 && forall i :: 0 <= i < |board| ==> GoodRow(board[i])
    requires Token(castlingRights)
    requires enPassantTarget.Some? ==> NoSpace(enPassantTarget.value)
    ensures ParseFenSpec(FenOf(board, activeColor, castlingRights, enPassantTarget, halfmoveClock, fullmoveNumber), false)
         == Ok(FenInfo(board, activeColor, CastlingFromFen(castlingRights), EnPassantBack(enPassantTarget),
                       halfmoveClock, fullmoveNumber))
  {
    PlacementRoundTrip(board);
    ParseFenText(Placement(board), board, activeColor, castlingRights, enPassantTarget, halfmoveClock, fullmoveNumber);
  }

  lemma ParseFenText(placement: string, board: Grid, activeColor: Color, castlingRights: string,
                     enPassantTarget: Option<string>, halfmoveClock: int, fullmoveNumber: int)
    requires Token(placement) && ExpandRows(Split(placement, '/')) == board
    requires Token(castlingRights)
    requires enPassantTarget.Some? ==> NoSpace(enPassantTarget.value)
    ensures ParseFenSpec(FenText(placement, activeColor, castlingRights, enPassantTarget, halfmoveClock, fullmoveNumber), false)
         == Ok(FenInfo(board, activeColor, CastlingFromFen(castlingRights), EnPassantBack(enPassantTarget),
                       halfmoveClock, fullmoveNumber))
  {
    var fen := FenText(placement, activeColor, castlingRights, enPassantTarget, halfmoveClock, fullmoveNumber);
    FenFields(placement, activeColor, castlingRights, enPassantTarget, halfmoveClock, fullmoveNumber);
    var parts := SplitWhitespace(fen);
    assert |parts| == 6;
    assert parts[4] == IntToString(halfmoveClock) && parts[5] == IntToString(fullmoveNumber);
    ParseIntToString(halfmoveClock);
    ParseIntToString(fullmoveNumber);
    ParseSixFields(fen, parts[0], parts[1], parts[2], parts[3], parts[4], parts[5], halfmoveClock, fullmoveNumber);
    assert (if parts[1] == "w" then White else Black) == activeColor;
    EnPassantFieldBack(enPassantTarget);
  }

  lemma ParseSixFields(fen: string, p: string, c: string, cr: string, ep: string, hs: string, fs: string, h: int, f: int)
    requires SplitWhitespace(fen) == [p, c, cr, ep, hs, fs]
    requires ParseInt(hs) == Ok(h) && ParseInt(fs) == Ok(f)
    ensures ParseFenSpec(fen, false)
         == Ok(FenInfo(ExpandRows(Split(p, '/')), if c == "w" then White else Black, CastlingFromFen(cr),
                       if ep == "-" then None else Some(ep), h, f))
  {
  }

  lemma EnPassantFieldBack(ep: Option<string>)
    ensures (if EnPassantField(ep) == "-" then None else Some(EnPassantField(ep))) == EnPassantBack(ep)
  {
  }

  predicate Token(s: string) { s != "" && NoSpace(s) }

  /** `create_fen`'s output splits back into its six fields. */
  lemma FenFields(placement: string, activeColor: Color, castlingRights: string,
                  enPassantTarget: Option<string>, halfmoveClock: int, fullmoveNumber: int)
    requires Token(placement) && Token(castlingRights)
    requires enPassantTarget.Some? ==> NoSpace(enPassantTarget.value)
    ensures SplitWhitespace(FenText(placement, activeColor, castlingRights, enPassantTarget, halfmoveClock, fullmoveNumber))
         == [placement, ColorField(activeColor), castlingRights,
             EnPassantField(enPassantTarget), IntToString(halfmoveClock), IntToString(fullmoveNumber)]
  {
    var c := ColorField(activeColor);
    assert Token(c);
    var ep := EnPassantField(enPassantTarget);
    assert Token(ep);
    var h, f := IntToString(halfmoveClock), IntToString(fullmoveNumber);
    IntToStringNoSpace(halfmoveClock);
    IntToStringNoSpace(fullmoveNumber);
    SixFields(placement, c, castlingRights, ep, h, f);
  }

  lemma SixFields(a: string, b: string, c: string, d: string, e: string, f: string)
    requires Token(a) && Token(b) && Token(c) && Token(d) && Token(e) && Token(f)
    ensures SplitWhitespace(Strip(" " + Join([a, b, c, d, e, f], " "))) == [a, b, c, d, e, f]
  {
    var fields := [a, b, c, d, e, f];
    forall i | 0 <= i < 6 ensures Token(fields[i]) {
    }
    FieldsRoundTrip(fields);
  }

  lemma PlacementRoundTrip(board: Grid)
    requires |board| >= 1 && forall i :: 0 <= i < |board| ==> GoodRow(board[i])
    ensures var placement := Join(EncodeRows(board), "/");
            placement != "" && NoSpace(placement) && ExpandRows(Split(placement, '/')) == board
  {
    RowsShape(board);
    PlacementShape(EncodeRows(board));
    PlacementParse(board, EncodeRows(board));
  }

  lemma PlacementToken(board: Grid)
    requires |board| >= 1 && forall i :: 0 <= i < |board| ==> GoodRow(board[i])
    ensures Token(Join(EncodeRows(board), "/"))
  {
    RowsShape(board);
    PlacementShape(EncodeRows(board));
  }

  lemma PlacementShape(rows: seq<string>)
    requires |rows| >= 1 && forall i :: 0 <= i < |rows| ==> rows[i] != "" && NoSpace(rows[i])
    ensures Join(rows, "/") != "" && NoSpace(Join(rows, "/"))
  {
    JoinFirst(rows, "/");
    JoinNoSpace(rows, "/");
  }

  lemma PlacementParse(board: Grid, rows: seq<string>)
    requires |rows| == |board| >= 1
    requires forall i :: 0 <= i < |board| ==> '/' !in rows[i] && ExpandRow(rows[i]) == board[i]
    ensures ExpandRows(Split(Join(rows, "/"), '/')) == board
  {
    JoinSplit(rows, '/');
    assert ExpandRows(rows) == board;
  }

  lemma RowsShape(board: Grid)
    requires forall i :: 0 <= i < |board| ==> GoodRow(board[i])
    ensures forall i :: 0 <= i < |board| ==>
              var row := EncodeRows(board)[i];
              row != "" && NoSpace(row) && '/' !in row && ExpandRow(row) == board[i]
  {
    var rows := EncodeRows(board);
    forall i | 0 <= i < |board|
      ensures rows[i] != "" && NoSpace(rows[i]) && '/' !in rows[i] && ExpandRow(rows[i]) == board[i]
    {
      EncodeRowShape(board[i]);
    }
  }

  lemma FieldsRoundTrip(fields: seq<string>)
    requires |fields| >= 1 && forall i :: 0 <= i < |fields| ==> fields[i] != "" && NoSpace(fields[i])
    ensures SplitWhitespace(Strip(" " + Join(fields, " "))) == fields
  {
    JoinFirst(fields, " ");
    JoinLast(fields, " ");
    StripPadded(Join(fields, " "));
    SplitWhitespaceJoin(fields);
  }

  lemma {:induction false} JoinNoSpace(parts: seq<string>, sep: string)
    requires NoSpace(sep) && forall i :: 0 <= i < |parts| ==> NoSpace(parts[i])
    ensures NoSpace(Join(parts, sep))
  {
    if |parts| > 1 {
      JoinNoSpace(parts[1..], sep);
    }
  }

  /** The castling field yields each flag exactly when its letter occurs. */
  lemma CastlingFlags(fen: string)
    requires ParseFenSpec(fen, false).Ok?
    ensures var info := ParseFenSpec(fen, false).value;
            var field := SplitWhitespace(fen)[2];
            (info.castlingRights.whiteKing <==> 'K' in field) && (info.castlingRights.whiteQueen <==> 'Q' in field)
            && (info.castlingRights.blackKing <==> 'k' in field) && (info.castlingRights.blackQueen <==> 'q' in field)
            && (info.activeColor == White <==> SplitWhitespace(fen)[1] == "w")
            && (info.enPassantTarget.None? <==> SplitWhitespace(fen)[3] == "-")
  {
  }

  /** Reading with `reverse_piece_placement` gives the rows of the plain reading in reverse order. */
  lemma ParseReversed(fen: string)
    requires ParseFenSpec(fen, false).Ok?
    ensures ParseFenSpec(fen, true).Ok?
    ensures ParseFenSpec(fen, true).value.board == Reverse(ParseFenSpec(fen, false).value.board)
    ensures ParseFenSpec(fen, true).value.(board := []) == ParseFenSpec(fen, false).value.(board := [])
  {
  }
}
