/**
 * The rook's rules: the trailing-piece conversion `_piece_to_alg_position`, and its
 * moves along its column and row. The moves are also stated by `Reach`, a
 * reference definition of the squares a sliding piece can go to along one
 * line, which the queen of the older engine shares.
 */
module RookRules {
  import opened Python
  import opened Notation
  import opened ChessBoard
  import opened Scans

  // ---------------------------------------------- where a slider can go

  /**
   * The squares a piece of `color` can slide to along `path`: the empty
   * squares up to the first piece, and that piece's square when it is an
   * enemy.
   */
  function Reach(g: Grid, path: seq<(int, int)>, color: Color): seq<(int, int)>
    requires IsGrid(g) && OnBoardPath(path)
  {
    if path == [] then []
    else
      var p := g[path[0].0][path[0].1];
      if p == null then [path[0]] + Reach(g, path[1..], color)
      else if p.color == color then []
      else [path[0]]
  }

  function SquaresOf(squares: seq<(int, int)>): (r: seq<Item>)
    ensures |r| == |squares|
    ensures forall k :: 0 <= k < |r| ==> r[k] == Square(squares[k].0, squares[k].1)
  {
    seq(|squares|, k requires 0 <= k < |squares| => Square(squares[k].0, squares[k].1))
  }

  /** Whether every square of `path` before the k-th is empty. */
  predicate ClearBefore(g: Grid, path: seq<(int, int)>, k: nat)
    requires IsGrid(g) && OnBoardPath(path) && k <= |path|
  {
    forall j :: 0 <= j < k ==> g[path[j].0][path[j].1] == null
  }

  /**
   * The k-th square of a line is reachable exactly when every square before
   * it is empty and it holds no piece of the mover's colour; the reachable
   * squares come in the order of the line.
   */
  lemma {:induction false} ReachMeans(g: Grid, path: seq<(int, int)>, color: Color)
    requires IsGrid(g) && OnBoardPath(path)
    ensures var reach := Reach(g, path, color);
            |reach| <= |path| && (forall k :: 0 <= k < |reach| ==> reach[k] == path[k])
    ensures forall k :: 0 <= k < |path| ==>
              (k < |Reach(g, path, color)| <==>
               ClearBefore(g, path, k) &&
               (g[path[k].0][path[k].1] == null || g[path[k].0][path[k].1].color != color))
  {
    if path != [] {
      ReachMeans(g, path[1..], color);
      var reach := Reach(g, path, color);
      var p := g[path[0].0][path[0].1];
      forall k | 0 <= k < |reach| ensures reach[k] == path[k] {
        if k > 0 {
          assert reach[k] == Reach(g, path[1..], color)[k - 1];
          assert path[1..][k - 1] == path[k];
        }
      }
      forall k | 0 <= k < |path|
        ensures k < |reach| <==>
                ClearBefore(g, path, k) && (g[path[k].0][path[k].1] == null || g[path[k].0][path[k].1].color != color)
      {
        if k > 0 {
          assert path[1..][k - 1] == path[k];
          if p == null {
            assert ClearBefore(g, path, k) <==> ClearBefore(g, path[1..], k - 1) by {
              if ClearBefore(g, path[1..], k - 1) {
                forall j | 0 <= j < k ensures g[path[j].0][path[j].1] == null {
                  if j > 0 { assert path[1..][j - 1] == path[j]; }
                }
              }
              if ClearBefore(g, path, k) {
                forall j | 0 <= j < k - 1 ensures g[path[1..][j].0][path[1..][j].1] == null {
                  assert path[1..][j] == path[j + 1];
                }
              }
            }
          } else {
            assert !ClearBefore(g, path, k);
          }
        }
      }
    }
  }

  /**
   * On a grid whose pieces stand on their own squares, trimming a scan that
   * ends at the first piece gives exactly the reachable squares.
   */
  lemma {:induction false} TrimmedScanIsReach(g: Grid, path: seq<(int, int)>, color: Color)
    requires IsGrid(g) && OnBoardPath(path) && Placed(g)
    ensures TrimLast(Walk(g, path, true, false, None), color) == SquaresOf(Reach(g, path, color))
  {
    if path != [] {
      var r, c := path[0].0, path[0].1;
      var p := g[r][c];
      var walk := Walk(g, path, true, false, None);
      var reach := Reach(g, path, color);
      if p == null {
        var rest := Walk(g, path[1..], true, false, None);
        assert walk == [Square(r, c)] + rest;
        assert reach == [path[0]] + Reach(g, path[1..], color);
        assert SquaresOf(reach) == [Square(r, c)] + SquaresOf(Reach(g, path[1..], color));
        TrimmedScanIsReach(g, path[1..], color);
        if path[1..] == [] {
          assert rest == [];
          assert TrimLast(walk, color) == [] + Trim(Square(r, c), color);
        } else {
          assert rest != [];
          TrimLastCons(Square(r, c), rest, color);
        }
      } else {
        assert walk == [Found(p)];
        assert p.row == r && p.column == c;
        assert TrimLast(walk, color) == [] + Trim(Found(p), color);
      }
    }
  }

  lemma TrimLastCons(x: Item, rest: seq<Item>, color: Color)
    requires !x.Found? && rest != []
    ensures TrimLast([x] + rest, color) == [x] + TrimLast(rest, color)
  {
    assert PiecesIn([x] + rest) == PiecesIn(rest) by {
      forall q | q in PiecesIn([x] + rest) ensures q in PiecesIn(rest) {
        var k :| 0 <= k < |[x] + rest| && ([x] + rest)[k].Found? && ([x] + rest)[k].piece == q;
        assert rest[k - 1] == ([x] + rest)[k];
      }
      forall q | q in PiecesIn(rest) ensures q in PiecesIn([x] + rest) {
        var k :| 0 <= k < |rest| && rest[k].Found? && rest[k].piece == q;
        assert rest[k] == ([x] + rest)[k + 1];
      }
    }
    assert ([x] + rest)[..|rest|] == [x] + rest[..|rest| - 1];
  }

  /** On an empty grid a slider reaches every square of the line. */
  lemma {:induction false} ReachOnEmptyGrid(path: seq<(int, int)>, color: Color)
    requires OnBoardPath(path)
    ensures Reach(EmptyGrid(), path, color) == path
  {
    if path != [] {
      ReachOnEmptyGrid(path[1..], color);
    }
  }

  // ------------------------------------------------------ the rook's lines

  /** Column below, column above, row to the left, row to the right: the order of the rook's list. */
  function RookLines(row: int, column: int): (lines: seq<seq<(int, int)>>)
    requires OnBoard(row, column)
    ensures |lines| == 4 && forall k :: 0 <= k < 4 ==> OnBoardPath(lines[k])
  {
    LinesOnBoard(row, column, 0);
    LinesOnBoard(column, row, 1);
    [Line(Down(row), column, 0), Line(Up(row), column, 0), Line(Down(column), row, 1), Line(Up(column), row, 1)]
  }

  /** The squares a rook of `color` on (row, column) can move to. */
  function RookTargets(g: Grid, row: int, column: int, color: Color): seq<(int, int)>
    requires IsGrid(g) && OnBoard(row, column)
  {
    var lines := RookLines(row, column);
    Reach(g, lines[0], color) + Reach(g, lines[1], color) + Reach(g, lines[2], color) + Reach(g, lines[3], color)
  }

  /** A square a slider reaches along a line is a square of the line that holds no piece of its colour. */
  lemma ReachedSquare(g: Grid, path: seq<(int, int)>, color: Color, target: (int, int))
    requires IsGrid(g) && OnBoardPath(path) && target in Reach(g, path, color)
    ensures exists k :: 0 <= k < |path| && path[k] == target
    ensures g[target.0][target.1] == null || g[target.0][target.1].color != color
  {
    ReachMeans(g, path, color);
    var k :| 0 <= k < |Reach(g, path, color)| && Reach(g, path, color)[k] == target;
    assert path[k] == target;
  }

  /** Every square of a rook line shares the rook's row or column and is not its own square. */
  lemma RookLineSquares(row: int, column: int, d: nat, k: nat)
    requires OnBoard(row, column) && d < 4 && k < |RookLines(row, column)[d]|
    ensures var s := RookLines(row, column)[d][k];
            s != (row, column) && (s.0 == row || s.1 == column)
  {
  }

  /** A rook's target shares its row or its column, and never holds a piece of its own colour. */
  lemma RookTargetsOnLines(g: Grid, row: int, column: int, color: Color, target: (int, int))
    requires IsGrid(g) && OnBoard(row, column) && target in RookTargets(g, row, column, color)
    ensures OnBoard(target.0, target.1) && target != (row, column)
    ensures target.0 == row || target.1 == column
    ensures g[target.0][target.1] == null || g[target.0][target.1].color != color
  {
    var lines := RookLines(row, column);
    var d: nat :| d < 4 && target in Reach(g, lines[d], color);
    ReachedSquare(g, lines[d], color, target);
    var k :| 0 <= k < |lines[d]| && lines[d][k] == target;
    RookLineSquares(row, column, d, k);
  }

  /** On an empty board a rook has fourteen moves wherever it stands. */
  lemma RookFourteenOnEmptyBoard(row: int, column: int, color: Color)
    requires OnBoard(row, column)
    ensures |RookTargets(EmptyGrid(), row, column, color)| == 14
  {
    var lines := RookLines(row, column);
    forall d | 0 <= d < 4 ensures Reach(EmptyGrid(), lines[d], color) == lines[d] {
      ReachOnEmptyGrid(lines[d], color);
    }
  }

  // --------------------------------------------------------- the rook's code

  /**
   * `_piece_to_alg_position`: a trailing piece becomes its square name
   * (`algebraic_pos`, a KeyError off the board); any other list, the empty
   * one included, is left as it is.
   */
  function PieceToAlgPosition(moves: seq<Item>): (r: Result<seq<Item>>)
    reads if moves != [] && moves[|moves| - 1].Found? then {moves[|moves| - 1].piece} else {}
    ensures (moves == [] || !moves[|moves| - 1].Found?) ==> r == Ok(moves)
    ensures moves != [] && moves[|moves| - 1].Found? ==>
              var p := moves[|moves| - 1].piece;
              (r.Ok? <==> OnBoard(p.row, p.column)) &&
              (r.Ok? ==> |r.value| == |moves| && r.value[..|moves| - 1] == moves[..|moves| - 1] &&
                         r.value[|moves| - 1] == Name(SquareName(p.row, p.column)))
  {
    if moves != [] && moves[|moves| - 1].Found? then
      var p := moves[|moves| - 1].piece;
      match ToAlgebraic(p.row, p.column)
      case Ok(s) => Ok(moves[..|moves| - 1] + [Name(s)])
      case Err(e) => Err(e)
    else Ok(moves)
  }

  /**
   * `Rook._calculate_legal_moves` and `Rook.get_attacked_squares` as
   * written: both hand `get_in_algebraic_notation` to `scan_column`, whose
   * parameters do not include it, so every call fails with a TypeError
   * before anything is scanned.
   */
  method CalculateRookMoves(rook: Piece, checkCapturable: bool, onlySquares: bool, algebraic: bool)
    returns (r: Result<seq<Item>>)
    ensures r == Err(TypeError)
  {
    r := Err(TypeError);
  }

  /**
   * The rook's moves as `_calculate_legal_moves` is meant to produce them: each of its four
   * lines scanned up to the first piece and trimmed, the column first.
   */
  method RookLegalMoves(rook: Piece) returns (r: seq<Item>)
    requires rook.board.Valid() && Placed(rook.board.grid) && OnBoard(rook.row, rook.column)
    ensures r == SquaresOf(RookTargets(rook.board.grid, rook.row, rook.column, rook.color))
  {
    r := ScanRookLines(rook);
    TrimmedLinesAreTargets(rook.board.grid, rook.row, rook.column, rook.color);
  }

  /** The four default scans along the rook's lines, each cut back to what the rook may take. */
  method ScanRookLines(rook: Piece) returns (r: seq<Item>)
    requires rook.board.Valid() && OnBoard(rook.row, rook.column)
    ensures var g, row, column := rook.board.grid, rook.row, rook.column;
            r == (TrimLast(Walk(g, Line(Down(row), column, 0), true, false, None), rook.color) +
                  TrimLast(Walk(g, Line(Up(row), column, 0), true, false, None), rook.color)) +
                 (TrimLast(Walk(g, Line(Down(column), row, 1), true, false, None), rook.color) +
                  TrimLast(Walk(g, Line(Up(column), row, 1), true, false, None), rook.color))
  {
    var c0, c1 := ScanColumn(rook.board, rook.row, rook.column, false, None, false, true);
    var r0, r1 := ScanRow(rook.board, rook.row, rook.column, false, None, false, true);
    r := TrimLines(c0, c1, r0, r1, rook.color);
  }

  /** Four scans, each cut back by `_check_capturable_moves` on its last entry. */
  method TrimLines(c0: seq<Item>, c1: seq<Item>, r0: seq<Item>, r1: seq<Item>, color: Color) returns (r: seq<Item>)
    ensures r == (TrimLast(c0, color) + TrimLast(c1, color)) + (TrimLast(r0, color) + TrimLast(r1, color))
  {
    var t0 := CheckCapturableMoves(c0, color, true);
    var t1 := CheckCapturableMoves(c1, color, true);
    var t2 := CheckCapturableMoves(r0, color, true);
    var t3 := CheckCapturableMoves(r1, color, true);
    assert t0 == TrimLast(c0, color);
    assert t1 == TrimLast(c1, color);
    assert t2 == TrimLast(r0, color);
    r := (t0 + t1) + (t2 + t3);
  }

  lemma TrimmedLinesAreTargets(g: Grid, row: int, column: int, color: Color)
    requires IsGrid(g) && Placed(g) && OnBoard(row, column)
    ensures var lines := RookLines(row, column);
            (TrimLast(Walk(g, lines[0], true, false, None), color) + TrimLast(Walk(g, lines[1], true, false, None), color)) +
            (TrimLast(Walk(g, lines[2], true, false, None), color) + TrimLast(Walk(g, lines[3], true, false, None), color)) ==
            SquaresOf(RookTargets(g, row, column, color))
  {
    var lines := RookLines(row, column);
    TrimmedScanIsReach(g, lines[0], color);
    TrimmedScanIsReach(g, lines[1], color);
    TrimmedScanIsReach(g, lines[2], color);
    TrimmedScanIsReach(g, lines[3], color);
    SquaresOfConcat(Reach(g, lines[0], color), Reach(g, lines[1], color),
                    Reach(g, lines[2], color), Reach(g, lines[3], color));
  }

  lemma SquaresOfConcat(a: seq<(int, int)>, b: seq<(int, int)>, c: seq<(int, int)>, d: seq<(int, int)>)
    ensures SquaresOf(a + b + c + d) == SquaresOf(a) + SquaresOf(b) + SquaresOf(c) + SquaresOf(d)
  {
  }
}
