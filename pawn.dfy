/**
 * The pawn's rules: the squares it attacks, its pushes (one square, two on
 * its first move, the four promotions on the last rank), its captures
 * (with promotion on the last rank), the en-passant target beside it and
 * its promotion on the board.
 */
module PawnRules {
  import opened Python
  import opened Notation
  import opened ChessBoard
  import opened Scans

  /** The way a pawn advances: up the rows for white, down for black. */
  function Direction(c: Color): (d: int)
    ensures d == 1 || d == -1
    ensures d == 1 <==> c == White
  {
    if c == White then 1 else -1
  }

  // ------------------------------------------------------ attacked squares

  /**
   * `get_attacked_squares`: the square diagonally forward on the left, then
   * the one on the right, each only when its column is on the board.
   */
  function AttackedSquares(row: int, column: int, color: Color): (r: seq<(int, int)>)
    ensures forall sq :: sq in r <==>
              sq.0 == row + Direction(color) &&
              ((sq.1 == column - 1 && column - 1 >= 0) || (sq.1 == column + 1 && column + 1 <= 7))
    ensures |r| <= 2 && (|r| == 2 ==> r[0].1 < r[1].1)
  {
    (if column - 1 >= 0 then [(row + Direction(color), column - 1)] else []) +
    (if column + 1 <= 7 then [(row + Direction(color), column + 1)] else [])
  }

  lemma AttackedSquaresOnBoard(row: int, column: int, color: Color)
    requires OnBoard(row, column) && OnBoard(row + Direction(color), column)
    ensures forall sq :: sq in AttackedSquares(row, column, color) ==> OnBoard(sq.0, sq.1)
    ensures |AttackedSquares(row, column, color)| == if column == 0 || column == 7 then 1 else 2
  {
  }

  /** The coordinates as move entries. */
  function SquareItems(squares: seq<(int, int)>): (r: seq<Item>)
    ensures |r| == |squares| && forall k :: 0 <= k < |r| ==> r[k] == Square(squares[k].0, squares[k].1)
  {
    seq(|squares|, k requires 0 <= k < |squares| => Square(squares[k].0, squares[k].1))
  }

  /** The names of the squares; a KeyError for the first one off the board. */
  function SquareNames(squares: seq<(int, int)>): (r: Result<seq<Item>>)
    ensures r.Ok? <==> forall k :: 0 <= k < |squares| ==> OnBoard(squares[k].0, squares[k].1)
    ensures r.Err? ==> r.error == KeyError
    ensures r.Ok? ==> |r.value| == |squares| &&
                      forall k :: 0 <= k < |squares| ==> r.value[k] == Name(SquareName(squares[k].0, squares[k].1))
  {
    if squares == [] then Ok([])
    else
      match ToAlgebraic(squares[0].0, squares[0].1)
      case Err(e) => Err(e)
      case Ok(name) =>
        var rest := SquareNames(squares[1..]);
        assert forall k :: 1 <= k < |squares| ==> squares[k] == squares[1..][k - 1];
        Prepend([Name(name)], rest)
  }

  /** `get_attacked_squares(show_in_algebraic_notation)`. */
  function GetAttackedSquares(pawn: Piece, algebraic: bool): (r: Result<seq<Item>>)
    reads pawn
    ensures !algebraic ==> r == Ok(SquareItems(AttackedSquares(pawn.row, pawn.column, pawn.color)))
  {
    var squares := AttackedSquares(pawn.row, pawn.column, pawn.color);
    if algebraic then SquareNames(squares) else Ok(SquareItems(squares))
  }

  // ------------------------------------------------------------ pushes

  /** A square as a move: its coordinates, or its name when asked. */
  function Target(row: int, column: int, algebraic: bool): (r: Result<Item>)
    ensures !algebraic ==> r == Ok(Square(row, column))
    ensures algebraic && OnBoard(row, column) ==> r == Ok(Name(SquareName(row, column)))
    ensures algebraic && !OnBoard(row, column) ==> r == Err(KeyError)
  {
    if !algebraic then Ok(Square(row, column))
    else
      match ToAlgebraic(row, column)
      case Ok(name) => Ok(Name(name))
      case Err(e) => Err(e)
  }

  /** The four promotions onto a square, in the engine's order: queen, rook, knight, bishop. */
  function Promotions(prefix: string): (r: seq<Item>)
    ensures |r| == 4
    ensures r[0] == Name(prefix + "=Q") && r[1] == Name(prefix + "=R")
    ensures r[2] == Name(prefix + "=N") && r[3] == Name(prefix + "=B")
  {
    [Name(prefix + "=Q"), Name(prefix + "=R"), Name(prefix + "=N"), Name(prefix + "=B")]
  }

  /** A row a pawn promotes on. */
  predicate LastRank(row: int) { row == 0 || row == 7 }

  /**
   * `_set_forward_moves`: one square ahead when it is empty, replaced by the
   * four promotions on the last rank; two squares ahead as well on the first
   * move when both are empty. `is_position_empty` indexes the grid the
   * Python way, so a square past the top edge is an IndexError and one past
   * the bottom edge wraps around.
   */
  function ForwardMoves(g: Grid, row: int, column: int, color: Color, firstMove: bool, algebraic: bool)
    : (r: Result<seq<Item>>)
    requires IsGrid(g) && OnBoard(row, column)
    ensures r.Ok? && r.value != [] ==> Lookup(g, row + Direction(color), column) == Ok(null)
    ensures r.Ok? && Lookup(g, row + Direction(color), column) == Ok(null) ==> r.value != []
    ensures Lookup(g, row + Direction(color), column) == Ok(null) && LastRank(row + Direction(color)) ==>
              r == Ok(Promotions(SquareName(row + Direction(color), column)))
    ensures r.Ok? && !LastRank(row + Direction(color)) ==> |r.value| <= 2
    ensures r.Ok? && |r.value| == 2 ==>
              firstMove && Lookup(g, row + 2 * Direction(color), column) == Ok(null)
    ensures r.Ok? && !algebraic && !LastRank(row + Direction(color)) && |r.value| >= 1 ==>
              r.value[0] == Square(row + Direction(color), column)
    ensures r.Ok? && !algebraic && |r.value| == 2 ==> r.value[1] == Square(row + 2 * Direction(color), column)
  {
    var d := Direction(color);
    match Lookup(g, row + d, column)
    case Err(e) => Err(e)
    case Ok(p) =>
      if p != null then Ok([])
      else if LastRank(row + d) then Ok(Promotions(SquareName(row + d, column)))
      else
        match Target(row + d, column, algebraic)
        case Err(e) => Err(e)
        case Ok(one) =>
          if !firstMove then Ok([one])
          else
            match Lookup(g, row + 2 * d, column)
            case Err(e) => Err(e)
            case Ok(q) =>
              if q != null then Ok([one])
              else
                match Target(row + 2 * d, column, algebraic)
                case Err(e) => Err(e)
                case Ok(two) => Ok([one] + [two])
  }

  // ---------------------------------------------------------- captures

  /** `_set_capture_in_coronation`'s four moves: the pawn's file, `x`, the square, the piece. */
  function CapturePromotions(file: char, square: string): seq<Item>
  {
    Promotions([file] + "x" + square)
  }

  /**
   * One side of `_set_capturable_moves`: the moves onto the forward square
   * of column `tc` (read as `board[row][column]`, Python indexing), and
   * whether a promotion capture ended the search.
   */
  function CaptureOn(g: Grid, row: int, column: int, color: Color, tc: int, algebraic: bool)
    : (r: Result<(seq<Item>, bool)>)
    requires IsGrid(g) && OnBoard(row, column) && 0 <= tc < 8
    ensures r.Ok? && r.value.0 != [] ==>
              Lookup(g, row + Direction(color), tc).Ok? && Lookup(g, row + Direction(color), tc).value != null &&
              Lookup(g, row + Direction(color), tc).value.color != color
    ensures r.Ok? ==> (r.value.1 <==> r.value.0 != [] && LastRank(row + Direction(color)))
  {
    var tr := row + Direction(color);
    match Lookup(g, tr, tc)
    case Err(e) => Err(e)
    case Ok(p) =>
      if p == null || p.color == color then Ok(([], false))
      else if LastRank(tr) then Ok((CapturePromotions(Files[column], SquareName(tr, tc)), true))
      else
        match Target(tr, tc, algebraic)
        case Err(e) => Err(e)
        case Ok(m) => Ok(([m], false))
  }

  /**
   * `_set_capturable_moves`: the left capture, then the right one. A
   * promotion capture on the left returns from the whole method, so the
   * right side is not examined after it.
   */
  function CaptureMoves(g: Grid, row: int, column: int, color: Color, algebraic: bool): (r: Result<seq<Item>>)
    requires IsGrid(g) && OnBoard(row, column)
  {
    var left := if column - 1 >= 0 then CaptureOn(g, row, column, color, column - 1, algebraic) else Ok(([], false));
    match left
    case Err(e) => Err(e)
    case Ok((moves, stop)) =>
      if stop || column + 1 > 7 then Ok(moves)
      else
        match CaptureOn(g, row, column, color, column + 1, algebraic)
        case Err(e) => Err(e)
        case Ok((more, _)) => Ok(moves + more)
  }

  /** An enemy piece stands on the forward square of column `tc`. */
  predicate EnemyAhead(g: Grid, row: int, color: Color, tc: int)
    requires IsGrid(g)
  {
    OnBoard(row + Direction(color), tc) && g[row + Direction(color)][tc] != null &&
    g[row + Direction(color)][tc].color != color
  }

  /** Every coordinate capture is an attacked square holding an enemy piece. */
  lemma CapturesAreAttacks(g: Grid, row: int, column: int, color: Color)
    requires IsGrid(g) && OnBoard(row, column) && OnBoard(row + Direction(color), column)
    requires CaptureMoves(g, row, column, color, false).Ok?
    ensures forall m :: m in CaptureMoves(g, row, column, color, false).value && m.Square? ==>
              (m.row, m.column) in AttackedSquares(row, column, color) && EnemyAhead(g, row, color, m.column)
  {
    var d := Direction(color);
    var left := if column - 1 >= 0 then CaptureOn(g, row, column, color, column - 1, false) else Ok(([], false));
    var right := if column + 1 <= 7 then CaptureOn(g, row, column, color, column + 1, false) else Ok(([], false));
    forall m | m in CaptureMoves(g, row, column, color, false).value && m.Square?
      ensures (m.row, m.column) in AttackedSquares(row, column, color) && EnemyAhead(g, row, color, m.column)
    {
      if m in left.value.0 {
        assert m == Square(row + d, column - 1);
      } else {
        assert m in right.value.0;
        assert m == Square(row + d, column + 1);
      }
    }
  }

  /**
   * Away from the last rank, every enemy piece diagonally ahead is captured:
   * no promotion capture can end the search early there.
   */
  lemma CapturesComplete(g: Grid, row: int, column: int, color: Color, tc: int)
    requires IsGrid(g) && OnBoard(row, column) && OnBoard(row + Direction(color), column)
    requires !LastRank(row + Direction(color))
    requires tc == column - 1 || tc == column + 1
    requires EnemyAhead(g, row, color, tc)
    ensures CaptureMoves(g, row, column, color, false).Ok?
    ensures Square(row + Direction(color), tc) in CaptureMoves(g, row, column, color, false).value
  {
  }

  /**
   * On the last rank a promotion capture on the left hides the one on the
   * right: with enemy pieces on both forward diagonals only the four left
   * promotions come back.
   */
  lemma PromotionCaptureHidesRight(g: Grid, row: int, column: int, color: Color)
    requires IsGrid(g) && OnBoard(row, column) && 1 <= column <= 6
    requires LastRank(row + Direction(color))
    requires EnemyAhead(g, row, color, column - 1) && EnemyAhead(g, row, color, column + 1)
    ensures CaptureMoves(g, row, column, color, false) ==
              Ok(CapturePromotions(Files[column], SquareName(row + Direction(color), column - 1)))
    ensures forall m :: m in CaptureMoves(g, row, column, color, false).value ==>
              m.Name? && m.s[2..4] == SquareName(row + Direction(color), column - 1)
  {
    var name := SquareName(row + Direction(color), column - 1);
    var moves := CapturePromotions(Files[column], name);
    forall m | m in moves ensures m.Name? && m.s[2..4] == name {
      assert ([Files[column]] + "x" + name)[2..4] == name;
    }
  }

  /** The captures with both sides examined, as `_set_capturable_moves` is meant to find them. */
  function CaptureMovesBothSides(g: Grid, row: int, column: int, color: Color, algebraic: bool): (r: Result<seq<Item>>)
    requires IsGrid(g) && OnBoard(row, column)
  {
    var left := if column - 1 >= 0 then CaptureOn(g, row, column, color, column - 1, algebraic) else Ok(([], false));
    var right := if column + 1 <= 7 then CaptureOn(g, row, column, color, column + 1, algebraic) else Ok(([], false));
    match left
    case Err(e) => Err(e)
    case Ok((moves, _)) =>
      match right
      case Err(e) => Err(e)
      case Ok((more, _)) => Ok(moves + more)
  }

  /**
   * With both sides examined, every enemy piece diagonally ahead gives a
   * move onto its square, on the last rank as well (the queen promotion).
   */
  lemma BothSidesComplete(g: Grid, row: int, column: int, color: Color, tc: int)
    requires IsGrid(g) && OnBoard(row, column) && OnBoard(row + Direction(color), column)
    requires tc == column - 1 || tc == column + 1
    requires EnemyAhead(g, row, color, tc)
    ensures CaptureMovesBothSides(g, row, column, color, false).Ok?
    ensures var tr := row + Direction(color);
            if LastRank(tr) then Name([Files[column]] + "x" + SquareName(tr, tc) + "=Q")
                                   in CaptureMovesBothSides(g, row, column, color, false).value
            else Square(tr, tc) in CaptureMovesBothSides(g, row, column, color, false).value
  {
    var tr := row + Direction(color);
    var side := CaptureOn(g, row, column, color, tc, false);
    assert side.Ok? && side.value.0 != [];
    if LastRank(tr) {
      assert side.value.0[0] == Name([Files[column]] + "x" + SquareName(tr, tc) + "=Q");
    }
  }

  /** Away from the last rank the two agree. */
  lemma BothSidesAgreeOffLastRank(g: Grid, row: int, column: int, color: Color, algebraic: bool)
    requires IsGrid(g) && OnBoard(row, column)
    requires !LastRank(row + Direction(color))
    ensures CaptureMovesBothSides(g, row, column, color, algebraic) == CaptureMoves(g, row, column, color, algebraic)
  {
    var left := if column - 1 >= 0 then CaptureOn(g, row, column, color, column - 1, algebraic) else Ok(([], false));
    if left.Ok? && column + 1 > 7 {
      assert left.value.0 + [] == left.value.0;
    }
  }

  // -------------------------------------------------------- en passant

  /** A pawn of the other colour that has just made its double step. */
  predicate Capturable(p: Piece?, color: Color)
    reads p
  {
    p != null && p.kind == Pawn && p.color != color && p.canBeCapturedEnPassant
  }

  /** The pieces on one row, whose flags the en-passant search reads. */
  function RowPieces(g: Grid, row: int): set<Piece>
    requires IsGrid(g) && 0 <= row < 8
  {
    set c | 0 <= c < 8 && g[row][c] != null :: g[row][c]
  }

  /**
   * `_get_on_passant_square`: the square behind an en-passant-capturable
   * pawn beside this one, the left one first; none otherwise.
   */
  function EnPassantSquare(g: Grid, row: int, column: int, color: Color): (r: Option<(int, int)>)
    requires IsGrid(g) && OnBoard(row, column)
    reads RowPieces(g, row)
    ensures r.Some? ==> exists tc :: (tc == column - 1 || tc == column + 1) && 0 <= tc < 8 &&
                           Capturable(g[row][tc], color) && r.value == (row + Direction(color), tc)
    ensures r.None? <==> (column - 1 < 0 || !Capturable(g[row][column - 1], color)) &&
                         (column + 1 > 7 || !Capturable(g[row][column + 1], color))
    ensures r.Some? && column - 1 >= 0 && Capturable(g[row][column - 1], color) ==>
              r.value == (row + Direction(color), column - 1)
  {
    if column - 1 >= 0 && Capturable(g[row][column - 1], color) then Some((row + Direction(color), column - 1))
    else if column + 1 <= 7 && Capturable(g[row][column + 1], color) then Some((row + Direction(color), column + 1))
    else None
  }

  /** `str((row, column))`. */
  function TupleText(row: int, column: int): string
  {
    "(" + IntToString(row) + ", " + IntToString(column) + ")"
  }

  /**
   * `_set_en_passant_moves`: the target square, as coordinates or a name,
   * or the capture text `<file>x<target>` when asked; with coordinates that
   * text holds the tuple's own spelling.
   */
  function EnPassantMoves(target: Option<(int, int)>, file: char, algebraic: bool, showCapture: bool)
    : (r: Result<seq<Item>>)
    ensures target.None? ==> r == Ok([])
    ensures target.Some? && r.Ok? ==> |r.value| == 1
    ensures target.Some? && !algebraic && !showCapture ==> r == Ok([Square(target.value.0, target.value.1)])
    ensures target.Some? && algebraic ==> (r.Ok? <==> OnBoard(target.value.0, target.value.1))
  {
    match target
    case None => Ok([])
    case Some((tr, tc)) =>
      if algebraic then
        match ToAlgebraic(tr, tc)
        case Err(e) => Err(e)
        case Ok(name) => Ok([Name(if showCapture then [file] + "x" + name else name)])
      else if showCapture then Ok([Name([file] + "x" + TupleText(tr, tc))])
      else Ok([Square(tr, tc)])
  }

  // ------------------------------------------------------- all the moves

  /** `_calculate_legal_moves`: the pushes, then the captures, then en passant. */
  function PawnMoves(g: Grid, row: int, column: int, color: Color, firstMove: bool, algebraic: bool,
                     showCapture: bool): Result<seq<Item>>
    requires IsGrid(g) && OnBoard(row, column)
    reads RowPieces(g, row)
  {
    var forward :- ForwardMoves(g, row, column, color, firstMove, algebraic);
    var captures :- CaptureMoves(g, row, column, color, algebraic);
    var enPassant :- EnPassantMoves(EnPassantSquare(g, row, column, color), Files[column], algebraic, showCapture);
    Ok(forward + captures + enPassant)
  }

  /**
   * With coordinates, every coordinate move stays on the pawn's own column
   * (a push) or goes one column aside and one row forward (a capture or an
   * en-passant capture), and every push or capture lands where the rules
   * allow it.
   */
  lemma PawnMovesShape(g: Grid, row: int, column: int, color: Color, firstMove: bool, showCapture: bool)
    requires IsGrid(g) && OnBoard(row, column) && OnBoard(row + Direction(color), column)
    requires PawnMoves(g, row, column, color, firstMove, false, showCapture).Ok?
    ensures forall m :: m in PawnMoves(g, row, column, color, firstMove, false, showCapture).value && m.Square? ==>
              (m.column == column && (m.row == row + Direction(color) || m.row == row + 2 * Direction(color))) ||
              ((m.row, m.column) in AttackedSquares(row, column, color))
  {
    var d := Direction(color);
    var forward := ForwardMoves(g, row, column, color, firstMove, false).value;
    var captures := CaptureMoves(g, row, column, color, false).value;
    var enPassant := EnPassantMoves(EnPassantSquare(g, row, column, color), Files[column], false, showCapture).value;
    CapturesAreAttacks(g, row, column, color);
    forall m: Item | m in forward + captures + enPassant && m.Square?
      ensures (m.column == column && (m.row == row + d || m.row == row + 2 * d)) ||
              ((m.row, m.column) in AttackedSquares(row, column, color))
    {
      if m in forward {
        if !LastRank(row + d) {
          var k :| 0 <= k < |forward| && forward[k] == m;
          assert k == 0 || k == 1;
        }
      }
    }
  }

  // ------------------------------------------------------- the methods

  /** `_set_forward_moves`: appends the pushes to the move list. */
  method SetForwardMoves(pawn: Piece, moves: seq<Item>, algebraic: bool) returns (r: Result<seq<Item>>)
    requires pawn.board.Valid() && OnBoard(pawn.row, pawn.column)
    ensures r == Prepend(moves, ForwardMoves(pawn.board.grid, pawn.row, pawn.column, pawn.color, pawn.firstMove, algebraic))
  {
    var board := pawn.board;
    var direction := Direction(pawn.color);
    var canMoveForward := false;
    var found: seq<Item> := [];
    var row := pawn.row + direction;
    var empty := board.IsPositionEmpty(row, pawn.column);
    if empty.Err? {
      return Err(empty.error);
    }
    if empty.value {
      canMoveForward := true;
      if row == 0 || row == 7 {
        return Ok(moves + Promotions(SquareName(row, pawn.column)));
      }
      var one := Target(row, pawn.column, algebraic);
      if one.Err? {
        return Err(one.error);
      }
      found := [one.value];
    }
    var two := pawn.row + 2 * direction;
    if pawn.firstMove && canMoveForward {
      var empty2 := board.IsPositionEmpty(two, pawn.column);
      assert empty2.Ok?;
      if empty2.value {
        var m := Target(two, pawn.column, algebraic);
        assert m.Ok?;                     // off the board only fails in algebraic notation, and `one` did
        found := found + [m.value];
      }
    }
    assert ForwardMoves(board.grid, pawn.row, pawn.column, pawn.color, pawn.firstMove, algebraic) == Ok(found);
    r := Ok(moves + found);
  }

  /** `_set_capturable_moves`: appends the captures to the move list. */

  method SetCapturableMoves(pawn: Piece, moves: seq<Item>, algebraic: bool) returns (r: Result<seq<Item>>)
    requires pawn.board.Valid() && OnBoard(pawn.row, pawn.column)
    ensures r == Prepend(moves, CaptureMoves(pawn.board.grid, pawn.row, pawn.column, pawn.color, algebraic))
  {
    var left: Result<(seq<Item>, bool)> := Ok(([], false));
    if pawn.column - 1 >= 0 {
      left := CaptureSide(pawn, pawn.column - 1, algebraic);
    }
    if left.Err? {
      return Err(left.error);
    }
    if left.value.1 {                     // a promotion capture returns at once
      return Ok(moves + left.value.0);
    }
    var found := left.value.0;
    if pawn.column + 1 <= 7 {
      var right := CaptureSide(pawn, pawn.column + 1, algebraic);
      if right.Err? {
        return Err(right.error);
      }
      found := found + right.value.0;
    }
    r := Ok(moves + found);
  }

  /** One side of `_set_capturable_moves`: the forward cell of column `tc`. */
  method CaptureSide(pawn: Piece, tc: int, algebraic: bool) returns (r: Result<(seq<Item>, bool)>)
    requires pawn.board.Valid() && OnBoard(pawn.row, pawn.column) && 0 <= tc < 8
    ensures r == CaptureOn(pawn.board.grid, pawn.row, pawn.column, pawn.color, tc, algebraic)
  {
    var row := pawn.row + Direction(pawn.color);
    var piece := Lookup(pawn.board.grid, row, tc);
    if piece.Err? {
      return Err(piece.error);
    }
    if piece.value == null || piece.value.color == pawn.color {
      return Ok(([], false));
    }
    if row == 0 || row == 7 {
      return Ok((CapturePromotions(Files[pawn.column], SquareName(row, tc)), true));
    }
    var m := Target(row, tc, algebraic);
    if m.Err? {
      return Err(m.error);
    }
    r := Ok(([m.value], false));
  }
  /**
   * `_get_on_passant_square`. The last line of `_get_on_passant_square` reads a cell and
   * discards it; for a pawn on the board that read always succeeds.
   */
  method GetOnPassantSquare(pawn: Piece) returns (r: Option<(int, int)>)
    requires pawn.board.Valid() && OnBoard(pawn.row, pawn.column)
    ensures r == EnPassantSquare(pawn.board.grid, pawn.row, pawn.column, pawn.color)
  {
    var board := pawn.board;
    var direction := Direction(pawn.color);
    if pawn.column - 1 >= 0 {
      var found := board.GetSquareOrPiece(pawn.row, pawn.column - 1);
      if found.value.At? {
        var piece := found.value.piece;
        if piece.kind == Pawn && piece.color != pawn.color && piece.canBeCapturedEnPassant {
          return Some((pawn.row + direction, pawn.column - 1));
        }
      }
    }
    if pawn.column + 1 <= 7 {
      var found := board.GetSquareOrPiece(pawn.row, pawn.column + 1);
      if found.value.At? {
        var piece := found.value.piece;
        if piece.kind == Pawn && piece.color != pawn.color && piece.canBeCapturedEnPassant {
          return Some((pawn.row + direction, pawn.column + 1));
        }
      }
    }
    var discarded := board.GetSquareOrPiece(pawn.row - 1, 0);
    assert discarded.Ok?;
    r := None;
  }

  /** `_calculate_legal_moves`: a fresh list, filled by the three helpers in turn. */
  method CalculatePawnMoves(pawn: Piece, algebraic: bool, showCapture: bool) returns (r: Result<seq<Item>>)
    requires pawn.board.Valid() && OnBoard(pawn.row, pawn.column)
    ensures r == PawnMoves(pawn.board.grid, pawn.row, pawn.column, pawn.color, pawn.firstMove, algebraic, showCapture)
  {
    var moves := SetForwardMoves(pawn, [], algebraic);
    if moves.Err? {
      return moves;
    }
    assert ForwardMoves(pawn.board.grid, pawn.row, pawn.column, pawn.color, pawn.firstMove, algebraic).value == moves.value;
    moves := SetCapturableMoves(pawn, moves.value, algebraic);
    if moves.Err? {
      return moves;
    }
    var target := GetOnPassantSquare(pawn);
    var file := Files[pawn.column];
    var enPassant := EnPassantMoves(target, file, algebraic, showCapture);
    if enPassant.Err? {
      return Err(enPassant.error);
    }
    r := Ok(moves.value + enPassant.value);
  }

  /** The piece lists once `remove_piece` has taken the pawn out of its own list. */
  function Dethroned(pieces: map<(Color, Kind), seq<Piece>>, pawn: Piece): map<(Color, Kind), seq<Piece>>
    reads pawn
  {
    var key := (pawn.color, pawn.kind);
    if key in pieces && RemoveFirst(pieces[key], pawn).Ok?
    then pieces[key := RemoveFirst(pieces[key], pawn).value]
    else pieces
  }

  /** The piece lists once `add_piece` has appended the new piece to the list of its colour and kind. */
  function Crowned(pieces: map<(Color, Kind), seq<Piece>>, piece: Piece): map<(Color, Kind), seq<Piece>>
    reads piece
  {
    pieces[(piece.color, piece.kind) := ListOf(pieces, piece.color, piece.kind) + [piece]]
  }

  /**
   * `coronate`: the pawn leaves the board and a new piece of the chosen
   * kind and the pawn's colour takes its square, through `add_piece` with
   * its default emptiness check.
   */
  method Coronate(pawn: Piece, into: Kind) returns (r: Result<Piece>)
    requires pawn.board.Valid()
    modifies pawn.board
    ensures pawn.board.Valid()
    ensures var cleared := Store(old(pawn.board.grid), pawn.row, pawn.column, null);
            r.Ok? ==> cleared.Ok? && pawn in ListOf(old(pawn.board.pieces), pawn.color, pawn.kind) &&
                      pawn.board.grid == Store(cleared.value, pawn.row, pawn.column, r.value).value
    ensures r.Ok? ==> fresh(r.value) && r.value.kind == into && r.value.color == pawn.color &&
                      (r.value.row, r.value.column) == (pawn.row, pawn.column) && r.value.board == pawn.board
    ensures r.Ok? ==> pawn.board.pieces == Crowned(Dethroned(old(pawn.board.pieces), pawn), r.value)
    ensures Store(old(pawn.board.grid), pawn.row, pawn.column, null).Err? ==>
              r.Err? && pawn.board.grid == old(pawn.board.grid) && pawn.board.pieces == old(pawn.board.pieces)
    ensures Store(old(pawn.board.grid), pawn.row, pawn.column, null).Ok? &&
            pawn !in ListOf(old(pawn.board.pieces), pawn.color, pawn.kind) ==>
              r.Err? && pawn.board.grid == Store(old(pawn.board.grid), pawn.row, pawn.column, null).value &&
              pawn.board.pieces == old(pawn.board.pieces)
    ensures r.Err? && Store(old(pawn.board.grid), pawn.row, pawn.column, null).Ok? &&
            pawn in ListOf(old(pawn.board.pieces), pawn.color, pawn.kind) ==>
              pawn.board.grid == Store(old(pawn.board.grid), pawn.row, pawn.column, null).value &&
              pawn.board.pieces == Dethroned(old(pawn.board.pieces), pawn)
    ensures pawn.board.rights == old(pawn.board.rights)
    ensures pawn.board.nWhite == old(pawn.board.nWhite) && pawn.board.nBlack == old(pawn.board.nBlack)
    ensures pawn.board.isSetUp == old(pawn.board.isSetUp)
  {
    var board := pawn.board;
    var removed := board.RemovePiece(pawn);
    if removed.Err? {
      return Err(removed.error);
    }
    r := board.AddPiece(Named(into), Some(pawn.color), pawn.row, pawn.column, None, true, None);
  }
}
