/**
 * The ray scans of `Piece`: walking a column, a row or a diagonal away from a
 * square, one cell at a time, and stopping at the first piece; the trimming
 * of a scan's last entry into a capture; and the searches for knights that
 * attack a square and for the enemy pieces on a list of squares.
 */
module Scans {
  import opened Python
  import opened Notation
  import opened ChessBoard

  /**
   * An entry of a scan or a move list: the coordinates of a square (an empty
   * cell, or a piece's position), a piece object, or a square name.
   */
  datatype Item = Square(row: int, column: int) | Found(piece: Piece) | Name(s: string)

  // ----------------------------------------------------------- the paths

  /** `range(from - 1, -1, -1)`. */
  function Down(from: int): (r: seq<int>)
    ensures |r| == if from > 0 then from else 0
    ensures forall k :: 0 <= k < |r| ==> r[k] == from - 1 - k
    decreases from
  {
    if from <= 0 then [] else [from - 1] + Down(from - 1)
  }

  /** `range(from + 1, 8)`. */
  function Up(from: int): (r: seq<int>)
    ensures |r| == if from < 7 then 7 - from else 0
    ensures forall k :: 0 <= k < |r| ==> r[k] == from + 1 + k
    decreases 8 - from
  {
    if from >= 7 then [] else [from + 1] + Up(from + 1)
  }

  /**
   * The squares of a line through a fixed row or column: side 0 varies the
   * row (a column scan), side 1 varies the column (a row scan).
   */
  function Line(values: seq<int>, fixed: int, side: nat): (path: seq<(int, int)>)
    ensures |path| == |values|
    ensures forall k :: 0 <= k < |path| ==> path[k] == if side == 0 then (values[k], fixed) else (fixed, values[k])
  {
    seq(|values|, k requires 0 <= k < |values| => if side == 0 then (values[k], fixed) else (fixed, values[k]))
  }

  /** `zip(rows, columns)`: as long as the shorter of the two. */
  function Zip(rows: seq<int>, columns: seq<int>): (path: seq<(int, int)>)
    ensures |path| == if |rows| < |columns| then |rows| else |columns|
    ensures forall k :: 0 <= k < |path| ==> path[k] == (rows[k], columns[k])
  {
    var n := if |rows| < |columns| then |rows| else |columns|;
    seq(n, k requires 0 <= k < n => (rows[k], columns[k]))
  }

  predicate OnBoardPath(path: seq<(int, int)>)
  {
    forall k :: 0 <= k < |path| ==> OnBoard(path[k].0, path[k].1)
  }

  /** The colour of king a scan may pass: `king_color` when `traspass_king` is set. */
  function PassKing(trespassKing: bool, kingColor: Option<Color>): Option<Color>
  {
    if trespassKing then kingColor else None
  }

  // ------------------------------------------------------ the scan itself

  /**
   * The entries a scan collects along a path: an empty cell gives its
   * coordinates, a piece gives itself (or its square when only squares are
   * asked for). A king of the passable colour is stepped over; any other
   * piece ends the scan when `end_at_piece_found` is set.
   */
  function Walk(g: Grid, path: seq<(int, int)>, endAt: bool, onlySquares: bool, passKing: Option<Color>): seq<Item>
    requires IsGrid(g) && OnBoardPath(path)
  {
    if path == [] then []
    else
      var (r, c) := path[0];
      var p := g[r][c];
      if p == null then [Square(r, c)] + Walk(g, path[1..], endAt, onlySquares, passKing)
      else
        var item := if onlySquares then Square(r, c) else Found(p);
        if p.kind == King && passKing == Some(p.color) then [item] + Walk(g, path[1..], endAt, onlySquares, passKing)
        else if endAt then [item]
        else [item] + Walk(g, path[1..], endAt, onlySquares, passKing)
  }

  /** An entry stands for the square it was collected from. */
  predicate ItemAt(g: Grid, item: Item, square: (int, int))
    requires IsGrid(g) && OnBoard(square.0, square.1)
  {
    match item
    case Square(r, c) => (r, c) == square
    case Found(p) => g[square.0][square.1] == p
    case Name(_) => false
  }

  /** The k-th entry of a scan comes from the k-th square of its path; a scan never outruns its path. */
  lemma {:induction false} WalkFollowsPath(g: Grid, path: seq<(int, int)>, endAt: bool, onlySquares: bool, passKing: Option<Color>)
    requires IsGrid(g) && OnBoardPath(path)
    ensures var w := Walk(g, path, endAt, onlySquares, passKing);
            |w| <= |path| &&
            (forall k :: 0 <= k < |w| ==> ItemAt(g, w[k], path[k])) &&
            (forall k :: 0 <= k < |w| && w[k].Found? ==> !onlySquares) &&
            (forall k :: 0 <= k < |w| && !onlySquares ==> (w[k].Square? <==> g[path[k].0][path[k].1] == null))
  {
    if path != [] {
      WalkFollowsPath(g, path[1..], endAt, onlySquares, passKing);
    }
  }

  /**
   * With `end_at_piece_found` and no king to pass, a scan is the path's empty
   * squares up to and including the first piece: every earlier entry is an
   * empty square, and a scan shorter than its path ends on a piece.
   */
  lemma {:induction false} WalkStopsAtFirstPiece(g: Grid, path: seq<(int, int)>, onlySquares: bool)
    requires IsGrid(g) && OnBoardPath(path)
    ensures var w := Walk(g, path, true, onlySquares, None);
            |w| <= |path| &&
            (forall k :: 0 <= k < |w| - 1 && k < |path| ==> g[path[k].0][path[k].1] == null) &&
            (|w| < |path| ==> |w| > 0 && g[path[|w| - 1].0][path[|w| - 1].1] != null)
  {
    if path != [] {
      WalkStopsAtFirstPiece(g, path[1..], onlySquares);
      var w := Walk(g, path, true, onlySquares, None);
      var w' := Walk(g, path[1..], true, onlySquares, None);
      if g[path[0].0][path[0].1] == null {
        assert w == [Square(path[0].0, path[0].1)] + w';
        forall k | 0 <= k < |w| - 1 && k < |path|
          ensures g[path[k].0][path[k].1] == null
        {
          if k > 0 {
            assert path[k] == path[1..][k - 1];
          }
        }
        if |w| < |path| {
          assert path[|w| - 1] == path[1..][|w'| - 1];
        }
      } else {
        assert |w| == 1;
      }
    }
  }

  /** Without `end_at_piece_found` a scan visits every square of its path. */
  lemma {:induction false} WalkWithoutStop(g: Grid, path: seq<(int, int)>, onlySquares: bool, passKing: Option<Color>)
    requires IsGrid(g) && OnBoardPath(path)
    ensures |Walk(g, path, false, onlySquares, passKing)| == |path|
  {
    if path != [] {
      WalkWithoutStop(g, path[1..], onlySquares, passKing);
    }
  }

  /** A king of the passable colour does not end a scan. */
  lemma KingIsPassed(g: Grid, path: seq<(int, int)>, onlySquares: bool, c: Color)
    requires IsGrid(g) && OnBoardPath(path) && path != []
    requires g[path[0].0][path[0].1] != null && g[path[0].0][path[0].1].kind == King
    requires g[path[0].0][path[0].1].color == c
    ensures Walk(g, path, true, onlySquares, Some(c)) ==
              [if onlySquares then Square(path[0].0, path[0].1) else Found(g[path[0].0][path[0].1])] +
              Walk(g, path[1..], true, onlySquares, Some(c))
  {
  }

  /** The entry one occupied cell gives. */
  function FoundItem(p: Piece, r: int, c: int, onlySquares: bool): Item
  {
    if onlySquares then Square(r, c) else Found(p)
  }

  /** Whether a scan goes on past a piece. */
  predicate GoesOn(p: Piece, endAt: bool, passKing: Option<Color>)
  {
    (p.kind == King && passKing == Some(p.color)) || !endAt
  }

  /** A step of a scan: the entry one cell gives and whether the scan goes on after it. */
  lemma WalkStep(g: Grid, path: seq<(int, int)>, k: nat, endAt: bool, onlySquares: bool, passKing: Option<Color>)
    requires IsGrid(g) && OnBoardPath(path) && k < |path|
    ensures g[path[k].0][path[k].1] == null ==>
              Walk(g, path[k..], endAt, onlySquares, passKing) ==
              [Square(path[k].0, path[k].1)] + Walk(g, path[k + 1..], endAt, onlySquares, passKing)
    ensures g[path[k].0][path[k].1] != null && GoesOn(g[path[k].0][path[k].1], endAt, passKing) ==>
              Walk(g, path[k..], endAt, onlySquares, passKing) ==
              [FoundItem(g[path[k].0][path[k].1], path[k].0, path[k].1, onlySquares)] +
              Walk(g, path[k + 1..], endAt, onlySquares, passKing)
    ensures g[path[k].0][path[k].1] != null && !GoesOn(g[path[k].0][path[k].1], endAt, passKing) ==>
              Walk(g, path[k..], endAt, onlySquares, passKing) ==
              [FoundItem(g[path[k].0][path[k].1], path[k].0, path[k].1, onlySquares)]
  {
    assert path[k..][1..] == path[k + 1..];
    assert path[k..][0] == path[k];
  }

  /**
   * `_scan_direction`: from `for_value - 1` down to 0 (d0) and from
   * `for_value + 1` up to 7 (d1), the other coordinate fixed at
   * `board_scan_value`. Only d1 steps over a king of `king_color`.
   */
  method ScanDirection(board: Board, forValue: int, scanValue: int, side: nat, endAt: bool,
                       onlySquares: bool, trespassKing: bool, kingColor: Option<Color>)
    returns (d0: seq<Item>, d1: seq<Item>)
    requires board.Valid() && side <= 1 && 0 <= forValue < 8 && 0 <= scanValue < 8
    ensures d0 == Walk(board.grid, Line(Down(forValue), scanValue, side), endAt, onlySquares, None)
    ensures d1 == Walk(board.grid, Line(Up(forValue), scanValue, side), endAt, onlySquares,
                       PassKing(trespassKing, kingColor))
  {
    d0 := WalkLine(board, Line(Down(forValue), scanValue, side), endAt, onlySquares, None);
    d1 := WalkLine(board, Line(Up(forValue), scanValue, side), endAt, onlySquares, PassKing(trespassKing, kingColor));
  }

  /** The loop of one scan direction, over the squares of its path. */
  method WalkLine(board: Board, path: seq<(int, int)>, endAt: bool, onlySquares: bool, passKing: Option<Color>)
    returns (out: seq<Item>)
    requires board.Valid() && OnBoardPath(path)
    ensures out == Walk(board.grid, path, endAt, onlySquares, passKing)
  {
    var g := board.grid;                  // a scan does not change the board
    out := [];
    var k := 0;
    assert path[k..] == path;
    while k < |path|
      invariant 0 <= k <= |path|
      invariant out + Walk(g, path[k..], endAt, onlySquares, passKing) == Walk(g, path, endAt, onlySquares, passKing)
      decreases |path| - k
    {
      var r := path[k].0;
      var c := path[k].1;
      var p := g[r][c];                   // `get_square_or_piece(row, column)`
      if p != null && !GoesOn(p, endAt, passKing) {
        WalkStops(g, path, k, out, endAt, onlySquares, passKing);
        return out + [CellItem(p, r, c, onlySquares)];
      }
      WalkContinues(g, path, k, out, endAt, onlySquares, passKing);
      out := out + [CellItem(p, r, c, onlySquares)];
      k := k + 1;
    }
  }

  /** The entry a scan records for the cell (r, c) holding `p`. */
  function CellItem(p: Piece?, r: int, c: int, onlySquares: bool): Item
  {
    if p == null then Square(r, c) else FoundItem(p, r, c, onlySquares)
  }

  /** A cell the scan goes on past: `out` grows by its entry and stays a prefix of the whole walk. */
  lemma WalkContinues(g: Grid, path: seq<(int, int)>, k: nat, out: seq<Item>,
                      endAt: bool, onlySquares: bool, passKing: Option<Color>)
    requires IsGrid(g) && OnBoardPath(path) && k < |path|
    requires out + Walk(g, path[k..], endAt, onlySquares, passKing) == Walk(g, path, endAt, onlySquares, passKing)
    requires g[path[k].0][path[k].1] == null || GoesOn(g[path[k].0][path[k].1], endAt, passKing)
    ensures (out + [CellItem(g[path[k].0][path[k].1], path[k].0, path[k].1, onlySquares)]) +
            Walk(g, path[k + 1..], endAt, onlySquares, passKing) == Walk(g, path, endAt, onlySquares, passKing)
  {
    WalkStep(g, path, k, endAt, onlySquares, passKing);
    var item := CellItem(g[path[k].0][path[k].1], path[k].0, path[k].1, onlySquares);
    var rest := Walk(g, path[k + 1..], endAt, onlySquares, passKing);
    assert Walk(g, path[k..], endAt, onlySquares, passKing) == [item] + rest;
    assert (out + [item]) + rest == out + ([item] + rest);
  }

  /** The piece that ends a scan: its entry completes the walk. */
  lemma WalkStops(g: Grid, path: seq<(int, int)>, k: nat, out: seq<Item>,
                  endAt: bool, onlySquares: bool, passKing: Option<Color>)
    requires IsGrid(g) && OnBoardPath(path) && k < |path|
    requires out + Walk(g, path[k..], endAt, onlySquares, passKing) == Walk(g, path, endAt, onlySquares, passKing)
    requires g[path[k].0][path[k].1] != null && !GoesOn(g[path[k].0][path[k].1], endAt, passKing)
    ensures out + [CellItem(g[path[k].0][path[k].1], path[k].0, path[k].1, onlySquares)] ==
            Walk(g, path, endAt, onlySquares, passKing)
  {
    WalkStep(g, path, k, endAt, onlySquares, passKing);
  }

  /** `scan_column`: the column of a square, below (d0) and above (d1). */
  method ScanColumn(board: Board, row: int, column: int, trespassKing: bool, kingColor: Option<Color>,
                    onlySquares: bool, endAt: bool) returns (d0: seq<Item>, d1: seq<Item>)
    requires board.Valid() && OnBoard(row, column)
    ensures d0 == Walk(board.grid, Line(Down(row), column, 0), endAt, onlySquares, None)
    ensures d1 == Walk(board.grid, Line(Up(row), column, 0), endAt, onlySquares, PassKing(trespassKing, kingColor))
  {
    d0, d1 := ScanDirection(board, row, column, 0, endAt, onlySquares, trespassKing, kingColor);
  }

  /** `scan_row`: the row of a square, to the left (d0) and to the right (d1). */
  method ScanRow(board: Board, row: int, column: int, trespassKing: bool, kingColor: Option<Color>,
                 onlySquares: bool, endAt: bool) returns (d0: seq<Item>, d1: seq<Item>)
    requires board.Valid() && OnBoard(row, column)
    ensures d0 == Walk(board.grid, Line(Down(column), row, 1), endAt, onlySquares, None)
    ensures d1 == Walk(board.grid, Line(Up(column), row, 1), endAt, onlySquares, PassKing(trespassKing, kingColor))
  {
    d0, d1 := ScanDirection(board, column, row, 1, endAt, onlySquares, trespassKing, kingColor);
  }

  /** A column or row scan visits the squares it names, in order. */
  lemma ColumnPath(row: int, column: int)
    requires OnBoard(row, column)
    ensures var down := Line(Down(row), column, 0);
            |down| == row && forall k :: 0 <= k < row ==> down[k] == (row - 1 - k, column)
    ensures var up := Line(Up(row), column, 0);
            |up| == 7 - row && forall k :: 0 <= k < 7 - row ==> up[k] == (row + 1 + k, column)
  {
    var rows, down := Down(row), Line(Down(row), column, 0);
    forall k | 0 <= k < row
      ensures down[k] == (row - 1 - k, column)
    {
      assert rows[k] == row - 1 - k;
    }
    var higher, up := Up(row), Line(Up(row), column, 0);
    forall k | 0 <= k < 7 - row
      ensures up[k] == (row + 1 + k, column)
    {
      assert higher[k] == row + 1 + k;
    }
  }

  lemma {:induction false} LinesOnBoard(v: int, fixed: int, side: nat)
    requires 0 <= v < 8 && 0 <= fixed < 8 && side <= 1
    ensures OnBoardPath(Line(Down(v), fixed, side)) && OnBoardPath(Line(Up(v), fixed, side))
  {
  }

  /** `_check_row_and_columns`: one diagonal, the squares `zip(start_range, end_range)`. */
  method CheckRowAndColumns(board: Board, starts: seq<int>, ends: seq<int>, endAt: bool,
                            trespassKing: bool, kingColor: Option<Color>, onlySquares: bool)
    returns (out: seq<Item>)
    requires board.Valid() && OnBoardPath(Zip(starts, ends))
    ensures out == Walk(board.grid, Zip(starts, ends), endAt, onlySquares, PassKing(trespassKing, kingColor))
  {
    out := WalkLine(board, Zip(starts, ends), endAt, onlySquares, PassKing(trespassKing, kingColor));
  }

  /** The four diagonals of a square: up-left, up-right, down-left, down-right in row/column terms. */
  function Diagonal(row: int, column: int, d: nat): (path: seq<(int, int)>)
    requires d < 4
  {
    match d
    case 0 => Zip(Down(row), Down(column))
    case 1 => Zip(Down(row), Up(column))
    case 2 => Zip(Up(row), Down(column))
    case _ => Zip(Up(row), Up(column))
  }

  /** The row direction of diagonal d: down the rows for 0 and 1, up for 2 and 3. */
  function RowStep(d: nat): int { if d < 2 then -1 else 1 }

  /** The column direction of diagonal d: down the columns for 0 and 2, up for 1 and 3. */
  function ColumnStep(d: nat): int { if d % 2 == 0 then -1 else 1 }

  /** n squares away from x in the direction of `step` (+1 or -1). */
  function Away(x: int, step: int, n: int): int { if step == 1 then x + n else x - n }

  function Min(a: int, b: int): int { if a < b then a else b }

  /**
   * The k-th square of a diagonal is k + 1 steps away in both coordinates,
   * and every square of it is on the board.
   */
  lemma DiagonalSquares(row: int, column: int, d: nat)
    requires OnBoard(row, column) && d < 4
    ensures forall k :: 0 <= k < |Diagonal(row, column, d)| ==>
              Diagonal(row, column, d)[k] == (Away(row, RowStep(d), k + 1), Away(column, ColumnStep(d), k + 1))
    ensures OnBoardPath(Diagonal(row, column, d))
  {
    var rows := if d < 2 then Down(row) else Up(row);
    var columns := if d % 2 == 0 then Down(column) else Up(column);
    if d < 2 { DownSteps(row); } else { UpSteps(row); }
    if d % 2 == 0 { DownSteps(column); } else { UpSteps(column); }
    assert Diagonal(row, column, d) == Zip(rows, columns);
    ZipSquares(rows, columns, row, RowStep(d), column, ColumnStep(d));
  }

  /** A diagonal runs until the nearer edge of the board in its direction. */
  lemma DiagonalLength(row: int, column: int, d: nat)
    requires OnBoard(row, column) && d < 4
    ensures |Diagonal(row, column, d)| == Min(if d < 2 then row else 7 - row, if d % 2 == 0 then column else 7 - column)
  {
    var rows := if d < 2 then Down(row) else Up(row);
    var columns := if d % 2 == 0 then Down(column) else Up(column);
    assert Diagonal(row, column, d) == Zip(rows, columns);
  }

  lemma DownSteps(from: int)
    requires 0 <= from < 8
    ensures forall k :: 0 <= k < |Down(from)| ==> Down(from)[k] == Away(from, -1, k + 1) && 0 <= Down(from)[k] < 8
  {
  }

  lemma UpSteps(from: int)
    requires 0 <= from < 8
    ensures forall k :: 0 <= k < |Up(from)| ==> Up(from)[k] == Away(from, 1, k + 1) && 0 <= Up(from)[k] < 8
  {
  }

  /** A zip of two ranges stepping away from (r0, c0) is the diagonal of those steps, on the board. */
  lemma ZipSquares(rows: seq<int>, columns: seq<int>, r0: int, dr: int, c0: int, dc: int)
    requires forall k :: 0 <= k < |rows| ==> rows[k] == Away(r0, dr, k + 1) && 0 <= rows[k] < 8
    requires forall k :: 0 <= k < |columns| ==> columns[k] == Away(c0, dc, k + 1) && 0 <= columns[k] < 8
    ensures forall k :: 0 <= k < |Zip(rows, columns)| ==>
              Zip(rows, columns)[k] == (Away(r0, dr, k + 1), Away(c0, dc, k + 1))
    ensures OnBoardPath(Zip(rows, columns))
  {
  }

  /** `scan_diagonals`: the four diagonals, each able to pass a king of `king_color`. */
  method ScanDiagonals(board: Board, row: int, column: int, endAt: bool, trespassKing: bool,
                       kingColor: Option<Color>, onlySquares: bool)
    returns (d0: seq<Item>, d1: seq<Item>, d2: seq<Item>, d3: seq<Item>)
    requires board.Valid() && OnBoard(row, column)
    ensures forall d :: 0 <= d < 4 ==> OnBoardPath(Diagonal(row, column, d))
    ensures d0 == Walk(board.grid, Diagonal(row, column, 0), endAt, onlySquares, PassKing(trespassKing, kingColor))
    ensures d1 == Walk(board.grid, Diagonal(row, column, 1), endAt, onlySquares, PassKing(trespassKing, kingColor))
    ensures d2 == Walk(board.grid, Diagonal(row, column, 2), endAt, onlySquares, PassKing(trespassKing, kingColor))
    ensures d3 == Walk(board.grid, Diagonal(row, column, 3), endAt, onlySquares, PassKing(trespassKing, kingColor))
  {
    DiagonalSquares(row, column, 0);
    DiagonalSquares(row, column, 1);
    DiagonalSquares(row, column, 2);
    DiagonalSquares(row, column, 3);
    d0 := CheckRowAndColumns(board, Down(row), Down(column), endAt, trespassKing, kingColor, onlySquares);
    d1 := CheckRowAndColumns(board, Down(row), Up(column), endAt, trespassKing, kingColor, onlySquares);
    d2 := CheckRowAndColumns(board, Up(row), Down(column), endAt, trespassKing, kingColor, onlySquares);
    d3 := CheckRowAndColumns(board, Up(row), Up(column), endAt, trespassKing, kingColor, onlySquares);
  }

  // ----------------------------------------------------- trimming a scan

  /** The pieces a move list holds. */
  function PiecesIn(moves: seq<Item>): set<Piece>
  {
    set k | 0 <= k < |moves| && moves[k].Found? :: moves[k].piece
  }

  /** What trimming makes of one entry: an own piece goes, an enemy piece becomes its position. */
  function Trim(m: Item, color: Color): (r: seq<Item>)
    reads if m.Found? then {m.piece} else {}
  {
    if m.Found? then
      if m.piece.color == color then [] else [Square(m.piece.row, m.piece.column)]
    else [m]
  }

  /**
   * `_check_capturable_moves(moves, check_only_last_move=True)`: only the
   * last entry is trimmed.
   */
  function TrimLast(moves: seq<Item>, color: Color): (r: seq<Item>)
    reads if moves != [] && moves[|moves| - 1].Found? then {moves[|moves| - 1].piece} else {}
    ensures moves == [] ==> r == []
    ensures moves != [] ==> r == moves[..|moves| - 1] + Trim(moves[|moves| - 1], color)
  {
    if moves == [] then []
    else moves[..|moves| - 1] + Trim(moves[|moves| - 1], color)
  }

  /** Every entry trimmed: the list the docstring of `_check_capturable_moves` describes. */
  function TrimAll(moves: seq<Item>, color: Color): (r: seq<Item>)
    reads PiecesIn(moves)
  {
    if moves == [] then []
    else
      assert PiecesIn(moves[1..]) <= PiecesIn(moves) by {
        forall p | p in PiecesIn(moves[1..]) ensures p in PiecesIn(moves) {
          var k :| 0 <= k < |moves[1..]| && moves[1..][k].Found? && moves[1..][k].piece == p;
          assert moves[k + 1] == moves[1..][k];
        }
      }
      Trim(moves[0], color) + TrimAll(moves[1..], color)
  }

  /** Trimming every entry leaves no piece object and no piece of the mover's colour. */
  lemma {:induction false} TrimAllLeavesSquares(moves: seq<Item>, color: Color)
    ensures forall k :: 0 <= k < |TrimAll(moves, color)| ==> !TrimAll(moves, color)[k].Found?
    ensures |TrimAll(moves, color)| <= |moves|
  {
    if moves != [] {
      TrimAllLeavesSquares(moves[1..], color);
    }
  }

  /** On a list whose only piece is its last entry, trimming all is trimming the last. */
  lemma {:induction false} TrimAllIsTrimLast(moves: seq<Item>, color: Color)
    requires forall k :: 0 <= k < |moves| - 1 ==> !moves[k].Found?
    ensures TrimAll(moves, color) == TrimLast(moves, color)
  {
    if |moves| > 1 {
      TrimAllIsTrimLast(moves[1..], color);
      assert moves[1..][..|moves[1..]| - 1] == moves[1..|moves| - 1];
      assert moves[..|moves| - 1] == [moves[0]] + moves[1..|moves| - 1];
    }
  }

  /**
   * The loop of `_check_capturable_moves` with `check_only_last_move=False`,
   * as written: it pops an own piece out of the list it is enumerating, so
   * the entry that slides into the popped slot is never looked at.
   */
  function SweepAsWritten(moves: seq<Item>, color: Color, i: nat): seq<Item>
    reads PiecesIn(moves)
    decreases |moves| - i
  {
    if i >= |moves| then moves
    else if moves[i].Found? then
      var p := moves[i].piece;
      if p.color == color then
        var rest := moves[..i] + moves[i + 1..];
        assert PiecesIn(rest) <= PiecesIn(moves) by {
          forall q | q in PiecesIn(rest) ensures q in PiecesIn(moves) {
            var k :| 0 <= k < |rest| && rest[k].Found? && rest[k].piece == q;
            if k < i { assert rest[k] == moves[k]; } else { assert rest[k] == moves[k + 1]; }
          }
        }
        SweepAsWritten(rest, color, i + 1)
      else
        var next := moves[i := Square(p.row, p.column)];
        assert PiecesIn(next) <= PiecesIn(moves) by {
          forall q | q in PiecesIn(next) ensures q in PiecesIn(moves) {
            var k :| 0 <= k < |next| && next[k].Found? && next[k].piece == q;
            assert next[k] == moves[k];
          }
        }
        SweepAsWritten(next, color, i + 1)
    else SweepAsWritten(moves, color, i + 1)
  }

  /** `_check_capturable_moves`: the last entry only, or the enumerate-and-pop sweep. */
  method CheckCapturableMoves(moves: seq<Item>, color: Color, checkOnlyLastMove: bool) returns (r: seq<Item>)
    ensures checkOnlyLastMove ==> r == TrimLast(moves, color)
    ensures !checkOnlyLastMove ==> r == SweepAsWritten(moves, color, 0)
  {
    if |moves| == 0 {
      return moves;
    }
    r := moves;
    if checkOnlyLastMove {
      var last := r[|r| - 1];
      if last.Found? {
        if last.piece.color == color {
          r := r[..|r| - 1];
        } else {
          r := r[|r| - 1 := Square(last.piece.row, last.piece.column)];
        }
      }
      return;
    }
    var i := 0;
    while i < |r|
      invariant SweepAsWritten(r, color, i) == SweepAsWritten(moves, color, 0)
      invariant PiecesIn(r) <= PiecesIn(moves)
      decreases |r| - i
    {
      if r[i].Found? {
        var p := r[i].piece;
        if p.color == color {
          var rest := r[..i] + r[i + 1..];
          assert PiecesIn(rest) <= PiecesIn(r) by {
            forall q | q in PiecesIn(rest) ensures q in PiecesIn(r) {
              var k :| 0 <= k < |rest| && rest[k].Found? && rest[k].piece == q;
              if k < i { assert rest[k] == r[k]; } else { assert rest[k] == r[k + 1]; }
            }
          }
          r := rest;
        } else {
          var next := r[i := Square(p.row, p.column)];
          assert PiecesIn(next) <= PiecesIn(r) by {
            forall q | q in PiecesIn(next) ensures q in PiecesIn(r) {
              var k :| 0 <= k < |next| && next[k].Found? && next[k].piece == q;
              assert next[k] == r[k];
            }
          }
          r := next;
        }
      }
      i := i + 1;
    }
  }

  /**
   * Two own pieces in a row: the sweep pops the first, never looks at the
   * second, and leaves an own piece in the list; trimming every entry
   * leaves nothing.
   */
  lemma SweepSkipsAfterPop(p: Piece, q: Piece)
    requires p.color == q.color
    ensures SweepAsWritten([Found(p), Found(q)], p.color, 0) == [Found(q)]
    ensures TrimAll([Found(p), Found(q)], p.color) == []
  {
    var moves := [Found(p), Found(q)];
    assert moves[..0] + moves[1..] == [Found(q)];
    assert TrimAll(moves[1..], p.color) == [];
  }

  /** On a list whose only piece is its last entry, the sweep as written trims it correctly. */
  lemma {:induction false} SweepAgreesOnScans(moves: seq<Item>, color: Color, i: nat)
    requires i <= |moves|
    requires forall k :: i <= k < |moves| - 1 ==> !moves[k].Found?
    ensures SweepAsWritten(moves, color, i) == moves[..i] + TrimAll(moves[i..], color)
    decreases |moves| - i
  {
    if i < |moves| {
      if moves[i].Found? {
        assert i == |moves| - 1;
        var p := moves[i].piece;
        assert moves[i..] == [moves[i]];
        assert TrimAll(moves[i..], color) == Trim(moves[i], color) + TrimAll([], color);
        if p.color == color {
          assert moves[..i] + moves[i + 1..] == moves[..i];
        } else {
          assert moves[i := Square(p.row, p.column)] == moves[..i] + [Square(p.row, p.column)];
        }
      } else {
        SweepAgreesOnScans(moves, color, i + 1);
        assert moves[..i + 1] == moves[..i] + [moves[i]];
        assert moves[i..][1..] == moves[i + 1..];
      }
    } else {
      assert moves[..i] == moves;
    }
  }

  // ---------------------------------------------------------- attackers

  const KnightOffsets: seq<(int, int)> := [(2, 1), (2, -1), (1, 2), (1, -2), (-1, 2), (-1, -2), (-2, 1), (-2, -1)]

  /** An enemy knight on the square (row + dr, column + dc), if the square is on the board. */
  function KnightAt(g: Grid, row: int, column: int, color: Color, offset: (int, int)): (r: seq<Piece>)
    requires IsGrid(g)
    ensures |r| <= 1
  {
    var (r, c) := (row + offset.0, column + offset.1);
    if OnBoard(r, c) && g[r][c] != null && g[r][c].kind == Knight && g[r][c].color != color then [g[r][c]] else []
  }

  /** The enemy knights on the offsets from the k-th on, in the order of `positions_to_check`. */
  function KnightsFrom(g: Grid, row: int, column: int, color: Color, k: nat): seq<Piece>
    requires IsGrid(g) && k <= 8
    decreases 8 - k
  {
    if k == 8 then [] else KnightAt(g, row, column, color, KnightOffsets[k]) + KnightsFrom(g, row, column, color, k + 1)
  }

  /** `get_knights_attacking_me`. */
  method GetKnightsAttackingMe(board: Board, piece: Piece) returns (attackers: seq<Piece>)
    requires board.Valid()
    ensures attackers == KnightsFrom(board.grid, piece.row, piece.column, piece.color, 0)
  {
    var g, row, column := board.grid, piece.row, piece.column;
    attackers := [];
    for k := 0 to 8
      invariant attackers + KnightsFrom(g, row, column, piece.color, k) == KnightsFrom(g, row, column, piece.color, 0)
    {
      var offset := KnightOffsets[k];
      var r, c := row + offset.0, column + offset.1;
      var hit: seq<Piece> := [];
      if Board.IsPositionOnBoard(Some((r, c)), None, None) {
        var p := g[r][c];                      // `get_square_or_piece(*pos)`
        if p != null && p.kind == Knight && p.color != piece.color {
          hit := [p];
        }
      }
      KnightsStep(g, row, column, piece.color, k, attackers);
      attackers := attackers + hit;
    }
  }

  /** One offset of `get_knights_attacking_me`: its hit extends the prefix of the whole list. */
  lemma KnightsStep(g: Grid, row: int, column: int, color: Color, k: nat, attackers: seq<Piece>)
    requires IsGrid(g) && k < 8
    requires attackers + KnightsFrom(g, row, column, color, k) == KnightsFrom(g, row, column, color, 0)
    ensures (attackers + KnightAt(g, row, column, color, KnightOffsets[k])) + KnightsFrom(g, row, column, color, k + 1) ==
            KnightsFrom(g, row, column, color, 0)
  {
    AppendAssoc(attackers, KnightAt(g, row, column, color, KnightOffsets[k]), KnightsFrom(g, row, column, color, k + 1));
  }

  lemma AppendAssoc<T>(a: seq<T>, b: seq<T>, c: seq<T>)
    ensures (a + b) + c == a + (b + c)
  {
  }

  /** The squares a knight's move away that hold an enemy knight `p`. */
  predicate KnightOn(g: Grid, row: int, column: int, j: nat, p: Piece)
    requires IsGrid(g) && j < 8
  {
    OnBoard(row + KnightOffsets[j].0, column + KnightOffsets[j].1) &&
    g[row + KnightOffsets[j].0][column + KnightOffsets[j].1] == p
  }

  /**
   * The knights found are exactly the enemy knights a knight's move away
   * from the square.
   */
  lemma KnightsAttacking(g: Grid, row: int, column: int, color: Color, k: nat, p: Piece)
    requires IsGrid(g) && k <= 8
    ensures p in KnightsFrom(g, row, column, color, k) <==>
              p.kind == Knight && p.color != color && exists j :: k <= j < 8 && KnightOn(g, row, column, j, p)
  {
    if p in KnightsFrom(g, row, column, color, k) {
      var j := KnightFoundAt(g, row, column, color, k, p);
    } else if exists j :: k <= j < 8 && KnightOn(g, row, column, j, p) {
      var j :| k <= j < 8 && KnightOn(g, row, column, j, p);
      if p.kind == Knight && p.color != color {
        KnightOnIsFound(g, row, column, color, k, j, p);
      }
    }
  }

  /** A knight on the list stands on one of the offsets from the k-th on. */
  lemma {:induction false} KnightFoundAt(g: Grid, row: int, column: int, color: Color, k: nat, p: Piece)
    returns (j: nat)
    requires IsGrid(g) && k <= 8 && p in KnightsFrom(g, row, column, color, k)
    ensures k <= j < 8 && KnightOn(g, row, column, j, p) && p.kind == Knight && p.color != color
    decreases 8 - k
  {
    var here := KnightAt(g, row, column, color, KnightOffsets[k]);
    assert KnightsFrom(g, row, column, color, k) == here + KnightsFrom(g, row, column, color, k + 1);
    if p in here {
      j := k;
    } else {
      j := KnightFoundAt(g, row, column, color, k + 1, p);
    }
  }

  /** An enemy knight on one of the offsets from the k-th on is on the list. */
  lemma {:induction false} KnightOnIsFound(g: Grid, row: int, column: int, color: Color, k: nat, j: nat, p: Piece)
    requires IsGrid(g) && k <= j < 8 && KnightOn(g, row, column, j, p) && p.kind == Knight && p.color != color
    ensures p in KnightsFrom(g, row, column, color, k)
    decreases 8 - k
  {
    var here := KnightAt(g, row, column, color, KnightOffsets[k]);
    assert KnightsFrom(g, row, column, color, k) == here + KnightsFrom(g, row, column, color, k + 1);
    if j > k {
      KnightOnIsFound(g, row, column, color, k + 1, j, p);
    }
  }

  /** The pieces of the other colour on a list of squares, in list order (`board[row][column]` lookups). */
  function EnemiesOn(g: Grid, color: Color, squares: seq<(int, int)>): (r: Result<seq<Piece>>)
    requires IsGrid(g)
    ensures r.Err? <==> exists k :: 0 <= k < |squares| && Lookup(g, squares[k].0, squares[k].1).Err?
    ensures r.Err? ==> r.error == IndexError
  {
    if squares == [] then Ok([])
    else match Lookup(g, squares[0].0, squares[0].1)
      case Err(e) => Err(e)
      case Ok(p) =>
        match EnemiesOn(g, color, squares[1..])
        case Err(e) =>
          assert exists k :: 0 <= k < |squares| && Lookup(g, squares[k].0, squares[k].1).Err? by {
            var k :| 0 <= k < |squares[1..]| && Lookup(g, squares[1..][k].0, squares[1..][k].1).Err?;
            assert squares[1..][k] == squares[k + 1];
          }
          Err(e)
        case Ok(rest) =>
          assert forall k :: 1 <= k < |squares| ==> squares[k] == squares[1..][k - 1];
          Ok((if p != null && p.color != color then [p as Piece] else []) + rest)
  }

  /** A result with a prefix put before its list. */
  function Prepend<T>(found: seq<T>, r: Result<seq<T>>): Result<seq<T>>
  {
    match r
    case Ok(rest) => Ok(found + rest)
    case Err(e) => Err(e)
  }

  /** One step of `EnemiesOn`: the k-th square's lookup, then the rest. */
  lemma EnemiesOnStep(g: Grid, color: Color, squares: seq<(int, int)>, k: nat)
    requires IsGrid(g) && k < |squares|
    ensures Lookup(g, squares[k].0, squares[k].1).Err? ==> EnemiesOn(g, color, squares[k..]) == Err(IndexError)
    ensures Lookup(g, squares[k].0, squares[k].1).Ok? ==>
              var p := Lookup(g, squares[k].0, squares[k].1).value;
              EnemiesOn(g, color, squares[k..]) ==
                Prepend(if p != null && p.color != color then [p as Piece] else [], EnemiesOn(g, color, squares[k + 1..]))
  {
    var s := squares[k..];
    assert s[1..] == squares[k + 1..];
    assert s[0] == squares[k];
    if Lookup(g, squares[k].0, squares[k].1).Ok? {
      var p := Lookup(g, squares[k].0, squares[k].1).value;
      match EnemiesOn(g, color, s[1..]) {
        case Err(e) =>
        case Ok(rest) =>
          assert EnemiesOn(g, color, s) == Ok((if p != null && p.color != color then [p as Piece] else []) + rest);
      }
    }
  }

  lemma PrependEmpty<T>(r: Result<seq<T>>)
    ensures Prepend([], r) == r
  {
    if r.Ok? {
      assert [] + r.value == r.value;
    }
  }

  lemma PrependPrepend<T>(a: seq<T>, b: seq<T>, r: Result<seq<T>>)
    ensures Prepend(a, Prepend(b, r)) == Prepend(a + b, r)
  {
    if r.Ok? {
      assert a + (b + r.value) == (a + b) + r.value;
    }
  }

  /** `get_pieces_under_attack`, given the squares `get_attacked_squares` gives. */
  method GetPiecesUnderAttack(board: Board, color: Color, attacked: seq<(int, int)>) returns (r: Result<seq<Piece>>)
    requires board.Valid()
    ensures r == EnemiesOn(board.grid, color, attacked)
  {
    var found: seq<Piece> := [];
    assert attacked[0..] == attacked;
    assert Prepend([], EnemiesOn(board.grid, color, attacked)) == EnemiesOn(board.grid, color, attacked) by {
      assert forall rest: seq<Piece> :: [] + rest == rest;
    }
    for k := 0 to |attacked|
      invariant EnemiesOn(board.grid, color, attacked) == Prepend(found, EnemiesOn(board.grid, color, attacked[k..]))
    {
      EnemiesOnStep(board.grid, color, attacked, k);
      var square := board.GetSquareOrPiece(attacked[k].0, attacked[k].1);
      if square.Err? {
        return Err(square.error);
      }
      var hit: seq<Piece> := [];
      if square.value.At? && square.value.piece.color != color {
        hit := [square.value.piece];
      }
      PrependPrepend(found, hit, EnemiesOn(board.grid, color, attacked[k + 1..]));
      found := found + hit;
    }
    assert attacked[|attacked|..] == [];
    assert found + [] == found;
    r := Ok(found);
  }

  /** Only pieces of the other colour are under attack, and each stands on one of the squares. */
  lemma {:induction false} EnemiesOnAreEnemies(g: Grid, color: Color, squares: seq<(int, int)>)
    requires IsGrid(g) && EnemiesOn(g, color, squares).Ok?
    ensures forall p :: p in EnemiesOn(g, color, squares).value ==>
              p.color != color && exists k :: 0 <= k < |squares| && Lookup(g, squares[k].0, squares[k].1) == Ok(p as Piece?)
  {
    if squares != [] {
      EnemiesOnAreEnemies(g, color, squares[1..]);
      forall p | p in EnemiesOn(g, color, squares).value
        ensures p.color != color && exists k :: 0 <= k < |squares| && Lookup(g, squares[k].0, squares[k].1) == Ok(p as Piece?)
      {
        if p !in EnemiesOn(g, color, squares[1..]).value {
          assert Lookup(g, squares[0].0, squares[0].1) == Ok(p as Piece?);
        } else {
          var k :| 0 <= k < |squares[1..]| && Lookup(g, squares[1..][k].0, squares[1..][k].1) == Ok(p as Piece?);
          assert squares[1..][k] == squares[k + 1];
        }
      }
    }
  }
}
