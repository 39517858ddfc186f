/**
 * The legal moves of the legacy pieces (pieces/pawn.py, pieces/rook.py,
 * pieces/queen.py and the stubs of pieces/king.py, pieces/knight.py and
 * pieces/bishop.py), `Board.get_legal_moves` of board/board.py, and
 * `move_to` of pieces/piece.py.
 *
 * A rook or queen move list is its rays, each scanned up to and including
 * the first piece and then trimmed: an own piece at the end is dropped, an
 * enemy piece becomes its position as a tuple. Empty squares stay as
 * `[row, column]` lists, which Python never finds equal to a tuple.
 */
module LegacyRules {
  import opened Python
  import opened Notation
  import Scans
  import opened LegacyBoard

  // ------------------------------------------------------------ the rays

  /** Every path of a list stays on the board. */
  predicate PathsOnBoard(paths: seq<seq<(int, int)>>)
  {
    forall i :: 0 <= i < |paths| ==> Scans.OnBoardPath(paths[i])
  }

  /** The trimmed scans of the paths, one after the other. */
  function Swept(g: Grid, paths: seq<seq<(int, int)>>, color: Color): seq<Entry>
    requires IsGrid(g) && PathsOnBoard(paths)
    reads Occupants(g)
  {
    if paths == [] then []
    else
      var s := Scan(g, paths[0], true);
      assert s != [] ==> s[|s| - 1] == SquareOrPiece(g, paths[0][|s| - 1]);
      TrimLast(s, color) + Swept(g, paths[1..], color)
  }

  /** The rays of `Rook.calculate_legal_moves`: column d0 and d1, then row d0 and d1. */
  function RookPaths(row: int, column: int): (ps: seq<seq<(int, int)>>)
    requires OnBoard(row, column)
    ensures |ps| == 4 && PathsOnBoard(ps)
  {
    StraightPathsOnBoard(row, column);
    [ColumnPath(row, column, 0), ColumnPath(row, column, 1), RowPath(row, column, 0), RowPath(row, column, 1)]
  }

  /** The rays of `Queen.calculate_legal_moves`: the four diagonals, then the rook's rays. */
  function QueenPaths(row: int, column: int): (ps: seq<seq<(int, int)>>)
    requires OnBoard(row, column)
    ensures |ps| == 8 && PathsOnBoard(ps)
  {
    DiagonalPathsOnBoard(row, column);
    [Scans.Diagonal(row, column, 0), Scans.Diagonal(row, column, 1),
     Scans.Diagonal(row, column, 2), Scans.Diagonal(row, column, 3)] + RookPaths(row, column)
  }

  function RookMoves(g: Grid, row: int, column: int, color: Color): seq<Entry>
    requires IsGrid(g) && OnBoard(row, column)
    reads Occupants(g)
  {
    Swept(g, RookPaths(row, column), color)
  }

  function QueenMoves(g: Grid, row: int, column: int, color: Color): seq<Entry>
    requires IsGrid(g) && OnBoard(row, column)
    reads Occupants(g)
  {
    Swept(g, QueenPaths(row, column), color)
  }

  /**
   * A move a piece of `color` may make: an empty square as a list, or the
   * square of an enemy piece as a tuple.
   */
  predicate Target(g: Grid, e: Entry, color: Color)
    requires IsGrid(g)
  {
    (e.Listed? && OnBoard(e.row, e.column) && g[e.row][e.column] == null) ||
    (e.Tupled? && OnBoard(e.row, e.column) && g[e.row][e.column] != null && g[e.row][e.column].color != color)
  }

  /**
   * A scan that stops at the first piece, trimmed: the empty squares before
   * the first piece (at index k, or none when k is the length), followed by
   * that piece's position when it is an enemy.
   */
  lemma {:induction false} TrimmedRay(g: Grid, path: seq<(int, int)>, color: Color, k: nat)
    requires IsGrid(g) && Scans.OnBoardPath(path) && k <= |path|
    requires forall j :: 0 <= j < k ==> g[path[j].0][path[j].1] == null
    requires k < |path| ==> g[path[k].0][path[k].1] != null
    ensures k == |path| ==> TrimLast(Scan(g, path, true), color) == ListedAll(path)
    ensures k < |path| && g[path[k].0][path[k].1].color == color ==>
              TrimLast(Scan(g, path, true), color) == ListedAll(path[..k])
    ensures k < |path| && g[path[k].0][path[k].1].color != color ==>
              TrimLast(Scan(g, path, true), color) ==
                ListedAll(path[..k]) + [Tupled(g[path[k].0][path[k].1].position.0, g[path[k].0][path[k].1].position.1)]
  {
    FirstPiece(g, path, k);
    if k == |path| {
      assert path[..k] == path;
    }
  }

  /** The scan itself: the empty squares before the first piece, then the piece. */
  lemma {:induction false} FirstPiece(g: Grid, path: seq<(int, int)>, k: nat)
    requires IsGrid(g) && Scans.OnBoardPath(path) && k <= |path|
    requires forall j :: 0 <= j < k ==> g[path[j].0][path[j].1] == null
    requires k < |path| ==> g[path[k].0][path[k].1] != null
    ensures k == |path| ==> Scan(g, path, true) == ListedAll(path)
    ensures k < |path| ==> Scan(g, path, true) == ListedAll(path[..k]) + [At(g[path[k].0][path[k].1])]
  {
    if path == [] {
    } else if k == 0 {
      assert ListedAll(path[..0]) == [];
    } else {
      var rest, head := path[1..], [Listed(path[0].0, path[0].1)];
      assert forall j :: 0 <= j < k - 1 ==> rest[j] == path[j + 1];
      FirstPiece(g, rest, k - 1);
      assert Scan(g, path, true) == head + Scan(g, rest, true);
      if k == |path| {
        ListedAllCons(path);
      } else {
        ListedAllCons(path[..k]);
        assert path[..k][1..] == rest[..k - 1];
        var piece := [At(g[path[k].0][path[k].1])];
        assert Scan(g, rest, true) == ListedAll(rest[..k - 1]) + piece;
        SeqAssociative(head, ListedAll(rest[..k - 1]), piece);
      }
    }
  }

  /** On a consistent grid every entry of a trimmed scan is a move to an empty or an enemy square. */
  lemma TrimmedRayTargets(g: Grid, path: seq<(int, int)>, color: Color)
    requires IsGrid(g) && Scans.OnBoardPath(path) && Consistent(g)
    ensures forall e :: e in TrimLast(Scan(g, path, true), color) ==> Target(g, e, color)
  {
    var k := FirstPieceIndex(g, path);
    TrimmedRay(g, path, color, k);
    EmptyPrefixTargets(g, path, color, k);
    if k < |path| {
      var q := g[path[k].0][path[k].1];
      assert q.position == path[k];
    }
  }

  /** The empty squares before the first piece of a path are all moves, as lists. */
  lemma EmptyPrefixTargets(g: Grid, path: seq<(int, int)>, color: Color, k: nat)
    requires IsGrid(g) && Scans.OnBoardPath(path) && k <= |path|
    requires forall j :: 0 <= j < k ==> g[path[j].0][path[j].1] == null
    ensures forall e :: e in ListedAll(path[..k]) ==> Target(g, e, color)
  {
    var t := ListedAll(path[..k]);
    forall e | e in t ensures Target(g, e, color) {
      var j :| 0 <= j < |t| && t[j] == e;
      assert e == Listed(path[j].0, path[j].1);
    }
  }

  /** Where the first piece of a path stands, or the length of the path when it holds none. */
  function FirstPieceIndex(g: Grid, path: seq<(int, int)>): (k: nat)
    requires IsGrid(g) && Scans.OnBoardPath(path)
    ensures k <= |path|
    ensures forall j :: 0 <= j < k ==> g[path[j].0][path[j].1] == null
    ensures k < |path| ==> g[path[k].0][path[k].1] != null
  {
    if path == [] then 0
    else if g[path[0].0][path[0].1] != null then 0
    else 1 + FirstPieceIndex(g, path[1..])
  }

  /** Every entry of the swept rays is a move to an empty square or onto an enemy piece. */
  lemma {:induction false} SweptTargets(g: Grid, paths: seq<seq<(int, int)>>, color: Color)
    requires IsGrid(g) && PathsOnBoard(paths) && Consistent(g)
    ensures forall e :: e in Swept(g, paths, color) ==> Target(g, e, color)
  {
    if paths != [] {
      TrimmedRayTargets(g, paths[0], color);
      SweptTargets(g, paths[1..], color);
    }
  }

  /** The first piece on a ray, when it is an enemy, is captured as a tuple of its square. */
  lemma {:induction false} SweptReachesEnemy(g: Grid, paths: seq<seq<(int, int)>>, color: Color, i: nat, k: nat)
    requires IsGrid(g) && PathsOnBoard(paths) && Consistent(g) && i < |paths| && k < |paths[i]|
    requires forall j :: 0 <= j < k ==> g[paths[i][j].0][paths[i][j].1] == null
    requires g[paths[i][k].0][paths[i][k].1] != null && g[paths[i][k].0][paths[i][k].1].color != color
    ensures Tupled(paths[i][k].0, paths[i][k].1) in Swept(g, paths, color)
  {
    if i == 0 {
      TrimmedRay(g, paths[0], color, k);
      assert TrimLast(Scan(g, paths[0], true), color)[k] == Tupled(paths[i][k].0, paths[i][k].1);
    } else {
      SweptReachesEnemy(g, paths[1..], color, i - 1, k);
    }
  }

  /** The empty squares before the first piece of a ray are all moves. */
  lemma {:induction false} SweptReachesEmpty(g: Grid, paths: seq<seq<(int, int)>>, color: Color, i: nat, k: nat)
    requires IsGrid(g) && PathsOnBoard(paths) && i < |paths| && k < |paths[i]|
    requires forall j :: 0 <= j <= k ==> g[paths[i][j].0][paths[i][j].1] == null
    ensures Listed(paths[i][k].0, paths[i][k].1) in Swept(g, paths, color)
  {
    if i == 0 {
      var f := FirstPieceIndex(g, paths[0]);
      TrimmedRay(g, paths[0], color, f);
      assert TrimLast(Scan(g, paths[0], true), color)[k] == Listed(paths[i][k].0, paths[i][k].1);
    } else {
      SweptReachesEmpty(g, paths[1..], color, i - 1, k);
    }
  }

  /** The summed lengths of the paths. */
  function TotalLength(paths: seq<seq<(int, int)>>): nat
  {
    if paths == [] then 0 else |paths[0]| + TotalLength(paths[1..])
  }

  lemma {:induction false} TotalLengthAppend(a: seq<seq<(int, int)>>, b: seq<seq<(int, int)>>)
    ensures TotalLength(a + b) == TotalLength(a) + TotalLength(b)
  {
    if a == [] {
      assert a + b == b;
    } else {
      assert (a + b)[0] == a[0] && (a + b)[1..] == a[1..] + b;
      TotalLengthAppend(a[1..], b);
    }
  }

  lemma FourLengths(ps: seq<seq<(int, int)>>)
    requires |ps| == 4
    ensures TotalLength(ps) == |ps[0]| + |ps[1]| + |ps[2]| + |ps[3]|
  {
    assert TotalLength(ps[3..]) == |ps[3]| + TotalLength(ps[4..]);
    assert TotalLength(ps[2..]) == |ps[2]| + TotalLength(ps[3..]);
    assert TotalLength(ps[1..]) == |ps[1]| + TotalLength(ps[2..]);
  }

  /** On an empty grid the swept rays list every square of every path. */
  lemma {:induction false} SweptEmptyGrid(paths: seq<seq<(int, int)>>, color: Color)
    requires PathsOnBoard(paths)
    ensures |Swept(EmptyGrid(), paths, color)| == TotalLength(paths)
    ensures forall e :: e in Swept(EmptyGrid(), paths, color) ==> e.Listed?
  {
    if paths != [] {
      ScanEmptyGrid(paths[0], true);
      SweptEmptyGrid(paths[1..], color);
    }
  }

  /** A rook has 14 moves from any square of an empty board. */
  lemma RookOnEmptyBoard(row: int, column: int, color: Color)
    requires OnBoard(row, column)
    ensures |RookMoves(EmptyGrid(), row, column, color)| == 14
  {
    var ps := RookPaths(row, column);
    SweptEmptyGrid(ps, color);
    RookPathLengths(row, column);
  }

  /** The rook's four rays together reach the rest of its row and column. */
  lemma RookPathLengths(row: int, column: int)
    requires OnBoard(row, column)
    ensures TotalLength(RookPaths(row, column)) == 14
  {
    var ps := RookPaths(row, column);
    assert |ps[0]| == row && |ps[1]| == 7 - row && |ps[2]| == column && |ps[3]| == 7 - column;
    FourLengths(ps);
  }

  /** How many diagonal squares a square sees. */
  function DiagonalReach(row: int, column: int): nat
    requires OnBoard(row, column)
  {
    Scans.Min(row, column) + Scans.Min(row, 7 - column) + Scans.Min(7 - row, column) + Scans.Min(7 - row, 7 - column)
  }

  /** A queen on an empty board moves to its rook squares and to every square of its diagonals. */
  lemma QueenOnEmptyBoard(row: int, column: int, color: Color)
    requires OnBoard(row, column)
    ensures |QueenMoves(EmptyGrid(), row, column, color)| == 14 + DiagonalReach(row, column)
  {
    var ps := QueenPaths(row, column);
    SweptEmptyGrid(ps, color);
    Scans.DiagonalLength(row, column, 0);
    Scans.DiagonalLength(row, column, 1);
    Scans.DiagonalLength(row, column, 2);
    Scans.DiagonalLength(row, column, 3);
    RookPathLengths(row, column);
    var diagonals := ps[..4];
    assert ps == diagonals + RookPaths(row, column);
    TotalLengthAppend(diagonals, RookPaths(row, column));
    FourLengths(diagonals);
  }

  /** A queen in the centre of an empty board has 27 moves. */
  lemma QueenInCentre(color: Color)
    ensures |QueenMoves(EmptyGrid(), 4, 4, color)| == 27
  {
    QueenOnEmptyBoard(4, 4, color);
  }

  /**
   * On a consistent grid a rook's and a queen's moves are empty squares and
   * enemy squares only: the square of a friendly piece never appears.
   */
  lemma OwnSquaresExcluded(g: Grid, row: int, column: int, color: Color)
    requires IsGrid(g) && OnBoard(row, column) && Consistent(g)
    ensures forall e :: e in RookMoves(g, row, column, color) ==> Target(g, e, color)
    ensures forall e :: e in QueenMoves(g, row, column, color) ==> Target(g, e, color)
  {
    SweptTargets(g, RookPaths(row, column), color);
    SweptTargets(g, QueenPaths(row, column), color);
  }

  /**
   * An enemy piece that is the first piece on one of a rook's rays is a
   * capture, and so are the empty squares before it moves.
   */
  lemma RookReachesBlocker(g: Grid, row: int, column: int, color: Color, i: nat, k: nat)
    requires IsGrid(g) && OnBoard(row, column) && Consistent(g) && i < 4
    requires var path := RookPaths(row, column)[i];
             k < |path| && (forall j :: 0 <= j < k ==> g[path[j].0][path[j].1] == null) &&
             g[path[k].0][path[k].1] != null && g[path[k].0][path[k].1].color != color
    ensures var path := RookPaths(row, column)[i];
            Tupled(path[k].0, path[k].1) in RookMoves(g, row, column, color) &&
            forall j :: 0 <= j < k ==> Listed(path[j].0, path[j].1) in RookMoves(g, row, column, color)
  {
    var ps := RookPaths(row, column);
    SweptReachesEnemy(g, ps, color, i, k);
    forall j | 0 <= j < k ensures Listed(ps[i][j].0, ps[i][j].1) in RookMoves(g, row, column, color) {
      SweptReachesEmpty(g, ps, color, i, j);
    }
  }

  /** The same for the eight rays of a queen. */
  lemma QueenReachesBlocker(g: Grid, row: int, column: int, color: Color, i: nat, k: nat)
    requires IsGrid(g) && OnBoard(row, column) && Consistent(g) && i < 8
    requires var path := QueenPaths(row, column)[i];
             k < |path| && (forall j :: 0 <= j < k ==> g[path[j].0][path[j].1] == null) &&
             g[path[k].0][path[k].1] != null && g[path[k].0][path[k].1].color != color
    ensures var path := QueenPaths(row, column)[i];
            Tupled(path[k].0, path[k].1) in QueenMoves(g, row, column, color) &&
            forall j :: 0 <= j < k ==> Listed(path[j].0, path[j].1) in QueenMoves(g, row, column, color)
  {
    var ps := QueenPaths(row, column);
    SweptReachesEnemy(g, ps, color, i, k);
    forall j | 0 <= j < k ensures Listed(ps[i][j].0, ps[i][j].1) in QueenMoves(g, row, column, color) {
      SweptReachesEmpty(g, ps, color, i, j);
    }
  }

  // ------------------------------------------------------ square names

  /** An entry `convert_to_algebraic_notation(*move)` accepts: coordinates on the board. */
  predicate Squared(e: Entry)
  {
    (e.Listed? || e.Tupled?) && OnBoard(e.row, e.column)
  }

  /**
   * `convert_to_algebraic_notation(*move)` for one entry: two coordinates
   * off the board are a KeyError; a piece object unpacks to nothing, which
   * is a TypeError; a square name unpacks to two characters, which the
   * row lookup refuses with a KeyError.
   */
  function NameOf(e: Entry): (r: Result<Entry>)
    ensures r.Ok? <==> Squared(e)
  {
    match e
    case Listed(row, column) => if OnBoard(row, column) then Ok(Name(SquareName(row, column))) else Err(KeyError)
    case Tupled(row, column) => if OnBoard(row, column) then Ok(Name(SquareName(row, column))) else Err(KeyError)
    case At(_) => Err(TypeError)
    case Name(_) => Err(KeyError)
  }

  /**
   * The list comprehension that turns a move list into square names: it
   * fails with the first entry's error, and otherwise names every entry in
   * order.
   */
  function Names(moves: seq<Entry>): (r: Result<seq<Entry>>)
    ensures r.Ok? <==> forall k :: 0 <= k < |moves| ==> Squared(moves[k])
    ensures r.Ok? ==>
              |r.value| == |moves| &&
              forall k :: 0 <= k < |moves| ==> r.value[k] == Name(SquareName(moves[k].row, moves[k].column))
  {
    if moves == [] then Ok([])
    else
      var first := NameOf(moves[0]);
      if first.Err? then Err(first.error)
      else
        var rest := Names(moves[1..]);
        if rest.Err? then rest
        else
          assert forall k :: 1 <= k < |moves| ==> moves[k] == moves[1..][k - 1];
          Ok([first.value] + rest.value)
  }

  /** The names of moves on the board are pairwise as distinct as the squares. */
  lemma NamesInjective(moves: seq<Entry>, i: nat, j: nat)
    requires Names(moves).Ok? && i < |moves| && j < |moves|
    requires Names(moves).value[i] == Names(moves).value[j]
    ensures moves[i].row == moves[j].row && moves[i].column == moves[j].column
  {
    ToAlgebraicInjective(moves[i].row, moves[i].column, moves[j].row, moves[j].column);
  }

  /** A move list as returned: names when `show_in_algebraic_notation` is set. */
  function Shown(moves: Result<seq<Entry>>, algebraic: bool): Result<seq<Entry>>
  {
    if moves.Err? || !algebraic then moves else Names(moves.value)
  }

  /** The moves of a rook or queen, and their names, on a consistent grid. */
  lemma TargetsHaveNames(g: Grid, moves: seq<Entry>, color: Color)
    requires IsGrid(g) && forall e :: e in moves ==> Target(g, e, color)
    ensures Names(moves).Ok?
  {
    assert forall k :: 0 <= k < |moves| ==> moves[k] in moves;
  }

  // ------------------------------------------------------------- pawns

  /** `direction`: up the rows for white, down for black. */
  function Ahead(color: Color): int
  {
    if color == White then 1 else -1
  }

  /**
   * `Pawn.calculate_legal_moves` on coordinates. The board is indexed the
   * Python way: a row index of 8 or more is an IndexError, a negative one
   * counts from the far end. The two-square push is only looked at after a
   * free one-square push on the first move.
   */
  function PawnMoves(g: Grid, row: int, column: int, color: Color, firstMove: bool): (r: Result<seq<Entry>>)
    requires IsGrid(g) && OnBoard(row, column)
    ensures r.Err? ==> r.error == IndexError
    ensures r.Ok? ==> forall k :: 0 <= k < |r.value| ==>
              r.value[k].Tupled? && 0 <= r.value[k].column < 8 &&
              (r.value[k].row == row + Ahead(color) || r.value[k].row == row + 2 * Ahead(color))
  {
    var forward := PawnPushes(g, row, column, color, firstMove);
    if forward.Err? then forward
    else
      var one := PyIndex(row + Ahead(color), 8).value;
      Ok(forward.value + PawnCapture(g, one, row, column, color, -1) + PawnCapture(g, one, row, column, color, 1))
  }

  /** The pushes: one square ahead when it is free, then two on the first move. */
  function PawnPushes(g: Grid, row: int, column: int, color: Color, firstMove: bool): (r: Result<seq<Entry>>)
    requires IsGrid(g) && OnBoard(row, column)
    ensures r.Err? <==> PyIndex(row + Ahead(color), 8).None? ||
                        (firstMove && g[PyIndex(row + Ahead(color), 8).value][column] == null &&
                         PyIndex(row + 2 * Ahead(color), 8).None?)
    ensures r.Err? ==> r.error == IndexError
  {
    var d := Ahead(color);
    var one := PyIndex(row + d, 8);
    if one.None? then Err(IndexError)
    else
      var canMoveForward := g[one.value][column] == null;
      var push := if canMoveForward then [Tupled(row + d, column)] else [];
      var two := PyIndex(row + 2 * d, 8);
      if firstMove && canMoveForward && two.None? then Err(IndexError)
      else if firstMove && canMoveForward && g[two.value][column] == null then Ok(push + [Tupled(row + 2 * d, column)])
      else Ok(push)
  }

  /** The capture on one side (-1 left, +1 right): an enemy piece on the diagonal square of a column on the board. */
  function PawnCapture(g: Grid, one: nat, row: int, column: int, color: Color, side: int): seq<Entry>
    requires IsGrid(g) && one < 8 && OnBoard(row, column)
  {
    if 0 <= column + side <= 7 && g[one][column + side] != null && g[one][column + side].color != color
    then [Tupled(row + Ahead(color), column + side)]
    else []
  }

  /**
   * The pawn's list is computed exactly when the square ahead is a row of
   * the list (Python's negative indices included), and, on a first move
   * with that square free, so is the square two ahead.
   */
  lemma PawnIndexError(g: Grid, row: int, column: int, color: Color, firstMove: bool)
    requires IsGrid(g) && OnBoard(row, column)
    ensures var one := PyIndex(row + Ahead(color), 8);
            PawnMoves(g, row, column, color, firstMove).Err? <==>
              one.None? || (firstMove && g[one.value][column] == null && PyIndex(row + 2 * Ahead(color), 8).None?)
  {
  }

  /** A single push is a move exactly when the square ahead is empty, whoever blocks it. */
  lemma PawnPush(g: Grid, row: int, column: int, color: Color, firstMove: bool)
    requires IsGrid(g) && OnBoard(row, column) && OnBoard(row + Ahead(color), column)
    requires PawnMoves(g, row, column, color, firstMove).Ok?
    ensures Tupled(row + Ahead(color), column) in PawnMoves(g, row, column, color, firstMove).value <==>
              g[row + Ahead(color)][column] == null
  {
    var ms := PawnMoves(g, row, column, color, firstMove).value;
    if Tupled(row + Ahead(color), column) in ms {
      var k :| 0 <= k < |ms| && ms[k] == Tupled(row + Ahead(color), column);
    }
  }

  /** A double push is a move exactly on the first move with both squares ahead empty. */
  lemma PawnDoublePush(g: Grid, row: int, column: int, color: Color, firstMove: bool)
    requires IsGrid(g) && OnBoard(row, column) && OnBoard(row + 2 * Ahead(color), column)
    requires PawnMoves(g, row, column, color, firstMove).Ok?
    ensures Tupled(row + 2 * Ahead(color), column) in PawnMoves(g, row, column, color, firstMove).value <==>
              firstMove && g[row + Ahead(color)][column] == null && g[row + 2 * Ahead(color)][column] == null
  {
  }

  /**
   * A diagonal step is a move exactly when its column is on the board and
   * an enemy piece stands there.
   */
  lemma PawnCaptures(g: Grid, row: int, column: int, color: Color, firstMove: bool, side: int)
    requires IsGrid(g) && OnBoard(row, column) && OnBoard(row + Ahead(color), column) && (side == -1 || side == 1)
    requires PawnMoves(g, row, column, color, firstMove).Ok?
    ensures Tupled(row + Ahead(color), column + side) in PawnMoves(g, row, column, color, firstMove).value <==>
              0 <= column + side < 8 && g[row + Ahead(color)][column + side] != null &&
              g[row + Ahead(color)][column + side].color != color
  {
  }

  /** A white pawn on the last row looks at a ninth row: an IndexError. */
  lemma WhitePawnOnLastRow(g: Grid, column: int, firstMove: bool)
    requires IsGrid(g) && 0 <= column < 8
    ensures PawnMoves(g, 7, column, White, firstMove) == Err(IndexError)
  {
  }

  // ------------------------------------------------- one piece, any kind

  /**
   * `calculate_legal_moves(show_in_algebraic_notation=...)` by kind. The
   * king's stub returns an empty list whatever it is asked; the knight's
   * and the bishop's take a positional `board` argument instead, so the
   * call is a TypeError.
   */
  function LegalMoves(g: Grid, kind: Kind, color: Color, row: int, column: int, firstMove: bool, algebraic: bool): Result<seq<Entry>>
    requires IsGrid(g) && OnBoard(row, column)
    reads Occupants(g)
  {
    match kind
    case Pawn => Shown(PawnMoves(g, row, column, color, firstMove), algebraic)
    case Rook => Shown(Ok(RookMoves(g, row, column, color)), algebraic)
    case Queen => Shown(Ok(QueenMoves(g, row, column, color)), algebraic)
    case King => Ok([])
    case Knight => Err(TypeError)
    case Bishop => Err(TypeError)
  }

  /** The legal moves of a piece standing on the board. */
  function PieceLegal(g: Grid, p: Piece, algebraic: bool): Result<seq<Entry>>
    requires IsGrid(g) && OnBoard(p.position.0, p.position.1)
    reads p, Occupants(g)
  {
    LegalMoves(g, p.kind, p.color, p.position.0, p.position.1, p.firstMove, algebraic)
  }

  /** A rook's or queen's list always has names on a consistent grid. */
  lemma SlidingNamesExist(g: Grid, kind: Kind, color: Color, row: int, column: int, firstMove: bool)
    requires IsGrid(g) && OnBoard(row, column) && Consistent(g) && (kind == Rook || kind == Queen)
    ensures LegalMoves(g, kind, color, row, column, firstMove, true).Ok?
  {
    OwnSquaresExcluded(g, row, column, color);
    if kind == Rook {
      var moves := RookMoves(g, row, column, color);
      TargetsHaveNames(g, moves, color);
      assert LegalMoves(g, kind, color, row, column, firstMove, true) == Names(moves);
    } else {
      var moves := QueenMoves(g, row, column, color);
      TargetsHaveNames(g, moves, color);
      assert LegalMoves(g, kind, color, row, column, firstMove, true) == Names(moves);
    }
  }

  // ------------------------------------------------------ the whole side

  /** The pieces of a colour's dictionary, list after list. */
  function Flatten(groups: seq<Group>): seq<Piece>
  {
    if groups == [] then [] else groups[0].pieces + Flatten(groups[1..])
  }

  /** The loop of `get_legal_moves` visits every piece of every list and nothing else. */
  lemma {:induction false} FlattenMembers(groups: seq<Group>)
    ensures forall i, j :: 0 <= i < |groups| && 0 <= j < |groups[i].pieces| ==> groups[i].pieces[j] in Flatten(groups)
    ensures forall p :: p in Flatten(groups) ==>
              exists i, j :: 0 <= i < |groups| && 0 <= j < |groups[i].pieces| && groups[i].pieces[j] == p
  {
    if groups != [] {
      FlattenMembers(groups[1..]);
      assert forall i :: 1 <= i < |groups| ==> groups[i] == groups[1..][i - 1];
      forall p | p in Flatten(groups)
        ensures exists i, j :: 0 <= i < |groups| && 0 <= j < |groups[i].pieces| && groups[i].pieces[j] == p
      {
        if p in groups[0].pieces {
          var j :| 0 <= j < |groups[0].pieces| && groups[0].pieces[j] == p;
          assert groups[0].pieces[j] == p;
        } else {
          assert p in Flatten(groups[1..]);
          var i, j :| 0 <= i < |groups[1..]| && 0 <= j < |groups[1..][i].pieces| && groups[1..][i].pieces[j] == p;
          assert groups[i + 1].pieces[j] == p;
        }
      }
    }
  }

  /** Every piece of the list stands on the board. */
  predicate Standing(ps: seq<Piece>)
    reads set p | p in ps
  {
    forall p :: p in ps ==> OnBoard(p.position.0, p.position.1)
  }

  /** `get_legal_moves`: each piece's list in turn, or the first error. */
  function LegalOfAll(g: Grid, ps: seq<Piece>, algebraic: bool): Result<seq<Entry>>
    requires IsGrid(g) && Standing(ps)
    reads Occupants(g), set p | p in ps
  {
    if ps == [] then Ok([])
    else
      var first := PieceLegal(g, ps[0], algebraic);
      if first.Err? then first
      else
        var rest := LegalOfAll(g, ps[1..], algebraic);
        if rest.Err? then rest else Ok(first.value + rest.value)
  }

  /** What each piece of the list answers when asked for its moves. */
  function PieceResults(g: Grid, ps: seq<Piece>, algebraic: bool): (rs: seq<Result<seq<Entry>>>)
    requires IsGrid(g) && Standing(ps)
    reads Occupants(g), set p | p in ps
    ensures |rs| == |ps| && forall k :: 0 <= k < |ps| ==> rs[k] == PieceLegal(g, ps[k], algebraic)
  {
    if ps == [] then [] else [PieceLegal(g, ps[0], algebraic)] + PieceResults(g, ps[1..], algebraic)
  }

  /** The answers joined in order, or the first error among them. */
  function Gathered(rs: seq<Result<seq<Entry>>>): Result<seq<Entry>>
  {
    if rs == [] then Ok([])
    else if rs[0].Err? then rs[0]
    else Prepend(rs[0].value, Gathered(rs[1..]))
  }

  /** `get_legal_moves` gathers the answers of the pieces one by one. */
  lemma {:induction false} LegalOfAllGathered(g: Grid, ps: seq<Piece>, algebraic: bool)
    requires IsGrid(g) && Standing(ps)
    ensures LegalOfAll(g, ps, algebraic) == Gathered(PieceResults(g, ps, algebraic))
  {
    if ps != [] {
      LegalOfAllCons(g, ps, algebraic);
      LegalOfAllGathered(g, ps[1..], algebraic);
    }
  }

  /** One answer further: an error ends the gathering, a list joins the moves gathered so far. */
  lemma GatheredStep(legal: seq<Entry>, rs: seq<Result<seq<Entry>>>)
    requires rs != []
    ensures rs[0].Err? ==> Prepend(legal, Gathered(rs)) == rs[0]
    ensures rs[0].Ok? ==> Prepend(legal, Gathered(rs)) == Prepend(legal + rs[0].value, Gathered(rs[1..]))
  {
    if rs[0].Ok? {
      PrependPrepend(legal, rs[0].value, Gathered(rs[1..]));
    }
  }

  /** The invariant of the gathering loops carried over one answer. */
  lemma GatherAdvance(whole: Result<seq<Entry>>, legal: seq<Entry>, rs: seq<Result<seq<Entry>>>, j: nat)
    requires j < |rs| && whole == Prepend(legal, Gathered(rs[j..]))
    ensures rs[j].Err? ==> whole == rs[j]
    ensures rs[j].Ok? ==> whole == Prepend(legal + rs[j].value, Gathered(rs[j + 1..]))
  {
    Unfold(rs, j);
    GatheredStep(legal, rs[j..]);
  }

  /** The moves gathered so far in front of what the remaining pieces give. */
  function Prepend(moves: seq<Entry>, r: Result<seq<Entry>>): Result<seq<Entry>>
  {
    if r.Err? then r else Ok(moves + r.value)
  }

  /**
   * When the pieces before `b` all have moves and the first of `b` fails,
   * the whole side fails with that piece's error.
   */
  lemma {:induction false} FirstFailure(g: Grid, a: seq<Piece>, b: seq<Piece>, algebraic: bool)
    requires IsGrid(g) && Standing(a + b) && b != []
    requires forall k :: 0 <= k < |a| ==> PieceLegal(g, a[k], algebraic).Ok?
    requires PieceLegal(g, b[0], algebraic).Err?
    ensures LegalOfAll(g, a + b, algebraic) == PieceLegal(g, b[0], algebraic)
  {
    if a == [] {
      assert a + b == b;
    } else {
      assert (a + b)[0] == a[0] && (a + b)[1..] == a[1..] + b;
      FirstFailure(g, a[1..], b, algebraic);
    }
  }

  /** A knight or a bishop anywhere in the list makes `get_legal_moves` fail. */
  lemma {:induction false} StubKindFails(g: Grid, ps: seq<Piece>, algebraic: bool, k: nat)
    requires IsGrid(g) && Standing(ps) && k < |ps| && (ps[k].kind == Knight || ps[k].kind == Bishop)
    ensures LegalOfAll(g, ps, algebraic).Err?
  {
    if PieceLegal(g, ps[0], algebraic).Ok? {
      StubKindFails(g, ps[1..], algebraic, k - 1);
    }
  }

  /**
   * On the starting position `get_legal_moves` raises a TypeError for
   * either colour: the eight pawns have moves, and the first knight after
   * them cannot be asked for its own.
   */
  lemma InitialBoardFails(b: Board, color: Color, algebraic: bool)
    requires b.Stage(6)
    ensures Standing(Flatten(b.PiecesOnBoard(color))) &&
            LegalOfAll(b.grid, Flatten(b.PiecesOnBoard(color)), algebraic) == Err(TypeError)
  {
    var groups := b.PiecesOnBoard(color);
    StagePieces(b, color);
    KnightOnStage(b, color);
    forall j | 0 <= j < |groups[0].pieces| ensures PieceLegal(b.grid, groups[0].pieces[j], algebraic).Ok? {
      InitialPawnMoves(b, color, j, algebraic);
    }
    KnightAfterPawns(b.grid, groups, algebraic);
  }

  /** Pieces with moves, then a list that starts with a knight: a TypeError. */
  lemma KnightAfterPawns(g: Grid, groups: seq<Group>, algebraic: bool)
    requires IsGrid(g) && Standing(Flatten(groups)) && |groups| >= 2 && groups[1].pieces != []
    requires groups[1].pieces[0].kind == Knight
    requires forall j :: 0 <= j < |groups[0].pieces| ==> PieceLegal(g, groups[0].pieces[j], algebraic).Ok?
    ensures LegalOfAll(g, Flatten(groups), algebraic) == Err(TypeError)
  {
    var pawns := groups[0].pieces;
    var rest := Flatten(groups[1..]);
    assert Flatten(groups) == pawns + rest;
    assert groups[1..][0] == groups[1];
    assert rest[0] == groups[1].pieces[0];
    FirstFailure(g, pawns, rest, algebraic);
  }

  /** In a set-up dictionary every piece stands on its square of this board. */
  lemma StagePieces(b: Board, color: Color)
    requires b.Stage(6)
    ensures forall p :: p in Flatten(b.PiecesOnBoard(color)) ==>
              OnBoard(p.position.0, p.position.1) && p.board == b && b.grid[p.position.0][p.position.1] == p
    ensures Standing(Flatten(b.PiecesOnBoard(color)))
  {
    var groups := b.PiecesOnBoard(color);
    var ps := Flatten(groups);
    FlattenMembers(groups);
    forall p | p in ps
      ensures OnBoard(p.position.0, p.position.1) && p.board == b && b.grid[p.position.0][p.position.1] == p
    {
      var i, j :| 0 <= i < |groups| && 0 <= j < |groups[i].pieces| && groups[i].pieces[j] == p;
      StagePiece(b, color, i, j);
    }
    assert Standing(ps);
  }

  /** The j-th piece of the i-th list of a set-up dictionary. */
  lemma StagePiece(b: Board, color: Color, i: nat, j: nat)
    requires b.Stage(6) && i < |b.PiecesOnBoard(color)| && j < |b.PiecesOnBoard(color)[i].pieces|
    ensures var p := b.PiecesOnBoard(color)[i].pieces[j];
            OnBoard(p.position.0, p.position.1) && p.board == b && b.grid[p.position.0][p.position.1] == p
  {
    var g := b.grid;
    var groups := b.PiecesOnBoard(color);
    assert GroupAt(groups[i], SetUpOrder[i], color, g);
    var row, column := HomeRow(SetUpOrder[i], color), SetUpColumns(SetUpOrder[i])[j];
    assert groups[i].pieces[j] == g[row][column];
    assert g[row][column] != null by {
      FullStageIsInitial(g);
      SetUpSquares(SetUpOrder[i], row, column);
    }
  }

  /** A pawn of the starting position: its two pushes stay on the board, so it has named moves. */
  lemma InitialPawnMoves(b: Board, color: Color, j: nat, algebraic: bool)
    requires b.Stage(6) && j < |b.PiecesOnBoard(color)[0].pieces|
    ensures OnBoard(b.PiecesOnBoard(color)[0].pieces[j].position.0, b.PiecesOnBoard(color)[0].pieces[j].position.1)
    ensures PieceLegal(b.grid, b.PiecesOnBoard(color)[0].pieces[j], algebraic).Ok?
  {
    var g := b.grid;
    var groups := b.PiecesOnBoard(color);
    var row, column := HomeRow(Pawn, color), SetUpColumns(Pawn)[j];
    var p := groups[0].pieces[j];
    assert p.kind == Pawn && p.color == color && p.position == (row, column) by {
      assert GroupAt(groups[0], Pawn, color, g);
      assert p == g[row][column];
      FullStageIsInitial(g);
      SetUpSquares(Pawn, row, column);
      assert CellOf(p) == Occ(Pawn, color);
    }
    HomePawnMoves(g, row, column, color, p.firstMove, algebraic);
  }

  /** From its home row a pawn's pushes stay on the board, so its list, and the list's names, exist. */
  lemma HomePawnMoves(g: Grid, row: int, column: int, color: Color, firstMove: bool, algebraic: bool)
    requires IsGrid(g) && row == HomeRow(Pawn, color) && 0 <= column < 8
    ensures LegalMoves(g, Pawn, color, row, column, firstMove, algebraic).Ok?
  {
    var moves := PawnMoves(g, row, column, color, firstMove);
    assert moves.Ok?;
    assert forall k :: 0 <= k < |moves.value| ==> Squared(moves.value[k]);
  }

  /** The first piece of the second list is a knight. */
  lemma KnightOnStage(b: Board, color: Color)
    requires b.Stage(6)
    ensures |b.PiecesOnBoard(color)| == 6 && |b.PiecesOnBoard(color)[1].pieces| == 2
    ensures b.PiecesOnBoard(color)[1].pieces[0].kind == Knight
  {
    var g := b.grid;
    var groups := b.PiecesOnBoard(color);
    assert GroupAt(groups[1], Knight, color, g);
    var row, column := HomeRow(Knight, color), SetUpColumns(Knight)[0];
    FullStageIsInitial(g);
    SetUpSquares(Knight, row, column);
    assert CellOf(groups[1].pieces[0]) == Occ(Knight, color);
  }

  // ----------------------------------------------------------- methods

  /** `Rook._check_moves_list`: the last entry trimmed as `_check_capturable_moves` does by default. */
  method CheckMovesList(rook: Piece, moves: seq<Entry>) returns (r: seq<Entry>)
    ensures r == TrimLast(moves, rook.color)
  {
    if |moves| == 0 {
      return moves;
    }
    r := moves;
    var last := moves[|moves| - 1];
    if last.At? {
      var isCapturable := true;
      if last.piece.color == rook.color {
        isCapturable := false;
        r := r[..|r| - 1];
      }
      if isCapturable {
        r := r[|r| - 1 := Tupled(last.piece.position.0, last.piece.position.1)];
      }
    }
  }

  /** `Rook.calculate_legal_moves`. */
  method RookLegalMoves(rook: Piece, algebraic: bool) returns (r: Result<seq<Entry>>)
    requires IsGrid(rook.board.grid) && OnBoard(rook.position.0, rook.position.1)
    ensures r == Shown(Ok(RookMoves(rook.board.grid, rook.position.0, rook.position.1, rook.color)), algebraic)
  {
    var c0, c1, r0, r1 := TrimmedStraightRays(rook);
    var columnMoves: seq<Entry> := [];
    var rowMoves: seq<Entry> := [];
    columnMoves := columnMoves + c0;
    assert columnMoves == c0;
    columnMoves := columnMoves + c1;
    rowMoves := rowMoves + r0;
    assert rowMoves == r0;
    rowMoves := rowMoves + r1;
    var legalMoves := columnMoves + rowMoves;
    RookMovesAre(rook.board.grid, rook.position.0, rook.position.1, rook.color);
    assert legalMoves == RookMoves(rook.board.grid, rook.position.0, rook.position.1, rook.color);
    r := Ok(legalMoves);
    if algebraic {
      r := Names(legalMoves);
    }
  }

  /** The column and row scans of a piece, each trimmed by `_check_moves_list`. */
  method TrimmedStraightRays(p: Piece) returns (c0: seq<Entry>, c1: seq<Entry>, r0: seq<Entry>, r1: seq<Entry>)
    requires IsGrid(p.board.grid) && OnBoard(p.position.0, p.position.1)
    ensures c0 == TrimLast(ColumnScan(p.board.grid, p.position.0, p.position.1, 0, true), p.color)
    ensures c1 == TrimLast(ColumnScan(p.board.grid, p.position.0, p.position.1, 1, true), p.color)
    ensures r0 == TrimLast(RowScan(p.board.grid, p.position.0, p.position.1, 0, true), p.color)
    ensures r1 == TrimLast(RowScan(p.board.grid, p.position.0, p.position.1, 1, true), p.color)
  {
    c0, c1 := TrimmedColumns(p);
    r0, r1 := TrimmedRows(p);
  }

  /** The column half of `TrimmedStraightRays`. */
  method TrimmedColumns(p: Piece) returns (c0: seq<Entry>, c1: seq<Entry>)
    requires IsGrid(p.board.grid) && OnBoard(p.position.0, p.position.1)
    ensures c0 == TrimLast(ColumnScan(p.board.grid, p.position.0, p.position.1, 0, true), p.color)
    ensures c1 == TrimLast(ColumnScan(p.board.grid, p.position.0, p.position.1, 1, true), p.color)
  {
    var scannedColumn0, scannedColumn1 := p.ScanColumn(true);
    c0 := CheckMovesList(p, scannedColumn0);
    c1 := CheckMovesList(p, scannedColumn1);
  }

  /** The row half of `TrimmedStraightRays`. */
  method TrimmedRows(p: Piece) returns (r0: seq<Entry>, r1: seq<Entry>)
    requires IsGrid(p.board.grid) && OnBoard(p.position.0, p.position.1)
    ensures r0 == TrimLast(RowScan(p.board.grid, p.position.0, p.position.1, 0, true), p.color)
    ensures r1 == TrimLast(RowScan(p.board.grid, p.position.0, p.position.1, 1, true), p.color)
  {
    var scannedRow0, scannedRow1 := p.ScanRow(true);
    r0 := CheckMovesList(p, scannedRow0);
    r1 := CheckMovesList(p, scannedRow1);
  }

  /** A rook's moves are its trimmed column scans followed by its trimmed row scans. */
  lemma RookMovesAre(g: Grid, row: int, column: int, color: Color)
    requires IsGrid(g) && OnBoard(row, column)
    ensures RookMoves(g, row, column, color) ==
              (TrimLast(ColumnScan(g, row, column, 0, true), color) + TrimLast(ColumnScan(g, row, column, 1, true), color)) +
              (TrimLast(RowScan(g, row, column, 0, true), color) + TrimLast(RowScan(g, row, column, 1, true), color))
  {
    SweptFour(g, RookPaths(row, column), color);
  }

  /** A queen's moves are its four swept diagonals followed by a rook's moves from its square. */
  lemma QueenMovesAre(g: Grid, row: int, column: int, color: Color)
    requires IsGrid(g) && OnBoard(row, column)
    ensures PathsOnBoard(QueenPaths(row, column)[..4])
    ensures QueenMoves(g, row, column, color) == Swept(g, QueenPaths(row, column)[..4], color) + RookMoves(g, row, column, color)
  {
    var ps := QueenPaths(row, column);
    var diagonals := ps[..4];
    assert ps == diagonals + RookPaths(row, column);
    SweptAppend(g, diagonals, RookPaths(row, column), color);
  }

  /** Four rays swept: the four trimmed scans, one after the other. */
  lemma SweptFour(g: Grid, ps: seq<seq<(int, int)>>, color: Color)
    requires IsGrid(g) && PathsOnBoard(ps) && |ps| == 4
    ensures Swept(g, ps, color) ==
              (TrimLast(Scan(g, ps[0], true), color) + TrimLast(Scan(g, ps[1], true), color)) +
              (TrimLast(Scan(g, ps[2], true), color) + TrimLast(Scan(g, ps[3], true), color))
  {
    var t0, t1 := TrimLast(Scan(g, ps[0], true), color), TrimLast(Scan(g, ps[1], true), color);
    var t2, t3 := TrimLast(Scan(g, ps[2], true), color), TrimLast(Scan(g, ps[3], true), color);
    assert ps[3..][0] == ps[3] && ps[3..][1..] == [];
    assert Swept(g, ps[3..], color) == t3 + Swept(g, [], color) == t3;
    assert ps[2..][0] == ps[2] && ps[2..][1..] == ps[3..];
    assert Swept(g, ps[2..], color) == t2 + t3;
    assert ps[1..][0] == ps[1] && ps[1..][1..] == ps[2..];
    assert Swept(g, ps[1..], color) == t1 + (t2 + t3);
    assert Swept(g, ps, color) == t0 + (t1 + (t2 + t3));
    Associate(t0, t1, t2, t3);
  }

  lemma Associate(a: seq<Entry>, b: seq<Entry>, c: seq<Entry>, d: seq<Entry>)
    ensures a + (b + (c + d)) == (a + b) + (c + d)
  {
  }

  /** Sweeping two lists of rays is sweeping each in turn. */
  lemma {:induction false} SweptAppend(g: Grid, a: seq<seq<(int, int)>>, b: seq<seq<(int, int)>>, color: Color)
    requires IsGrid(g) && PathsOnBoard(a) && PathsOnBoard(b)
    ensures PathsOnBoard(a + b) && Swept(g, a + b, color) == Swept(g, a, color) + Swept(g, b, color)
  {
    PathsAppend(a, b);
    if a == [] {
      assert a + b == b;
    } else {
      var ab, rest := a + b, a[1..];
      var head := TrimLast(Scan(g, a[0], true), color);
      ConsAppend(a, b);
      SweptCons(g, a, color);
      SweptCons(g, ab, color);
      SweptAppend(g, rest, b, color);
      var x, y := Swept(g, rest, color), Swept(g, b, color);
      assert Swept(g, ab, color) == head + (x + y);
      assert Swept(g, a, color) == head + x;
      SeqAssociative(head, x, y);
    }
  }

  lemma SeqAssociative<T>(a: seq<T>, b: seq<T>, c: seq<T>)
    ensures a + (b + c) == (a + b) + c
  {
  }

  lemma ConsAppend<T>(a: seq<T>, b: seq<T>)
    requires a != []
    ensures (a + b)[0] == a[0] && (a + b)[1..] == a[1..] + b
  {
  }

  lemma PathsAppend(a: seq<seq<(int, int)>>, b: seq<seq<(int, int)>>)
    requires PathsOnBoard(a) && PathsOnBoard(b)
    ensures PathsOnBoard(a + b)
  {
    forall i | 0 <= i < |a + b|
      ensures Scans.OnBoardPath((a + b)[i])
    {
      if i < |a| {
        assert (a + b)[i] == a[i];
      } else {
        assert (a + b)[i] == b[i - |a|];
      }
    }
  }

  /** The first ray swept, then the others. */
  lemma SweptCons(g: Grid, ps: seq<seq<(int, int)>>, color: Color)
    requires IsGrid(g) && PathsOnBoard(ps) && ps != []
    ensures PathsOnBoard(ps[1..])
    ensures Swept(g, ps, color) == TrimLast(Scan(g, ps[0], true), color) + Swept(g, ps[1..], color)
  {
  }

  /** `Queen.calculate_legal_moves`. */
  method QueenLegalMoves(queen: Piece, algebraic: bool) returns (r: Result<seq<Entry>>)
    requires IsGrid(queen.board.grid) && OnBoard(queen.position.0, queen.position.1)
    ensures r == Shown(Ok(QueenMoves(queen.board.grid, queen.position.0, queen.position.1, queen.color)), algebraic)
  {
    var legalMoves := DiagonalMoves(queen);
    ghost var diagonalMoves := legalMoves;
    assert forall o :: o in Occupants(queen.board.grid) ==> allocated(o);
    var c0, c1, r0, r1 := TrimmedStraightLines(queen);
    assert diagonalMoves == Swept(queen.board.grid, QueenPaths(queen.position.0, queen.position.1)[..4], queen.color);
    legalMoves := legalMoves + c0;
    legalMoves := legalMoves + c1;
    legalMoves := legalMoves + r0;
    legalMoves := legalMoves + r1;
    Associate5(diagonalMoves, c0, c1, r0, r1);
    QueenMovesAre(queen.board.grid, queen.position.0, queen.position.1, queen.color);
    r := Ok(legalMoves);
    if algebraic {
      r := Names(legalMoves);
    }
  }

  /** The first half of `Queen.calculate_legal_moves`: the four diagonals, each trimmed, one after the other. */
  method DiagonalMoves(queen: Piece) returns (legalMoves: seq<Entry>)
    requires IsGrid(queen.board.grid) && OnBoard(queen.position.0, queen.position.1)
    ensures PathsOnBoard(QueenPaths(queen.position.0, queen.position.1)[..4])
    ensures legalMoves == Swept(queen.board.grid, QueenPaths(queen.position.0, queen.position.1)[..4], queen.color)
  {
    legalMoves := [];
    var t0, t1, t2, t3 := TrimmedDiagonals(queen);
    legalMoves := legalMoves + t0;
    assert legalMoves == t0;
    legalMoves := legalMoves + t1;
    legalMoves := legalMoves + t2;
    legalMoves := legalMoves + t3;
    Associate3(t0 + t1, t2, t3);
    QueenMovesAre(queen.board.grid, queen.position.0, queen.position.1, queen.color);
    SweptFour(queen.board.grid, QueenPaths(queen.position.0, queen.position.1)[..4], queen.color);
  }

  /** `scan_diagonals()` of a queen, each direction trimmed by `_check_capturable_moves`. */
  method TrimmedDiagonals(queen: Piece) returns (t0: seq<Entry>, t1: seq<Entry>, t2: seq<Entry>, t3: seq<Entry>)
    requires IsGrid(queen.board.grid) && OnBoard(queen.position.0, queen.position.1)
    ensures t0 == TrimLast(DiagonalScan(queen.board.grid, queen.position.0, queen.position.1, 0, true), queen.color)
    ensures t1 == TrimLast(DiagonalScan(queen.board.grid, queen.position.0, queen.position.1, 1, true), queen.color)
    ensures t2 == TrimLast(DiagonalScan(queen.board.grid, queen.position.0, queen.position.1, 2, true), queen.color)
    ensures t3 == TrimLast(DiagonalScan(queen.board.grid, queen.position.0, queen.position.1, 3, true), queen.color)
  {
    var d0, d1, d2, d3 := queen.ScanDiagonals(true);
    t0 := queen.CheckCapturableMoves(d0, true);
    t1 := queen.CheckCapturableMoves(d1, true);
    t2 := queen.CheckCapturableMoves(d2, true);
    t3 := queen.CheckCapturableMoves(d3, true);
  }

  /** The column and row scans of a queen, each trimmed by `_check_capturable_moves`: a rook's moves. */
  method TrimmedStraightLines(queen: Piece) returns (c0: seq<Entry>, c1: seq<Entry>, r0: seq<Entry>, r1: seq<Entry>)
    requires IsGrid(queen.board.grid) && OnBoard(queen.position.0, queen.position.1)
    ensures (c0 + c1) + (r0 + r1) == RookMoves(queen.board.grid, queen.position.0, queen.position.1, queen.color)
  {
    c0, c1 := QueenColumns(queen);
    r0, r1 := QueenRows(queen);
    RookMovesAre(queen.board.grid, queen.position.0, queen.position.1, queen.color);
  }

  /** The column half of `TrimmedStraightLines`. */
  method QueenColumns(queen: Piece) returns (c0: seq<Entry>, c1: seq<Entry>)
    requires IsGrid(queen.board.grid) && OnBoard(queen.position.0, queen.position.1)
    ensures c0 == TrimLast(ColumnScan(queen.board.grid, queen.position.0, queen.position.1, 0, true), queen.color)
    ensures c1 == TrimLast(ColumnScan(queen.board.grid, queen.position.0, queen.position.1, 1, true), queen.color)
  {
    var scannedColumn0, scannedColumn1 := queen.ScanColumn(true);
    c0 := queen.CheckCapturableMoves(scannedColumn0, true);
    c1 := queen.CheckCapturableMoves(scannedColumn1, true);
  }

  /** The row half of `TrimmedStraightLines`. */
  method QueenRows(queen: Piece) returns (r0: seq<Entry>, r1: seq<Entry>)
    requires IsGrid(queen.board.grid) && OnBoard(queen.position.0, queen.position.1)
    ensures r0 == TrimLast(RowScan(queen.board.grid, queen.position.0, queen.position.1, 0, true), queen.color)
    ensures r1 == TrimLast(RowScan(queen.board.grid, queen.position.0, queen.position.1, 1, true), queen.color)
  {
    var scannedRow0, scannedRow1 := queen.ScanRow(true);
    r0 := queen.CheckCapturableMoves(scannedRow0, true);
    r1 := queen.CheckCapturableMoves(scannedRow1, true);
  }

  lemma Associate3(a: seq<Entry>, b: seq<Entry>, c: seq<Entry>)
    ensures a + b + c == a + (b + c)
  {
  }

  lemma Associate5(x: seq<Entry>, a: seq<Entry>, b: seq<Entry>, c: seq<Entry>, d: seq<Entry>)
    ensures x + a + b + c + d == x + ((a + b) + (c + d))
  {
  }

  /** `Pawn.calculate_legal_moves`, reading the board cell by cell. */
  method PawnLegalMoves(pawn: Piece, algebraic: bool) returns (r: Result<seq<Entry>>)
    requires IsGrid(pawn.board.grid) && OnBoard(pawn.position.0, pawn.position.1)
    ensures r == Shown(PawnMoves(pawn.board.grid, pawn.position.0, pawn.position.1, pawn.color, pawn.firstMove), algebraic)
  {
    var board := pawn.board.grid;
    var direction := if pawn.color == White then 1 else -1;
    var legalMoves: seq<Entry> := [];
    var canMoveForward := false;
    var posTo := (pawn.position.0 + 1 * direction, pawn.position.1);
    var ahead := PyIndex(posTo.0, 8);
    assert direction == Ahead(pawn.color) && ahead == PyIndex(pawn.position.0 + Ahead(pawn.color), 8);
    if ahead.None? {
      return Err(IndexError);
    }
    if board[ahead.value][posTo.1] == null {
      legalMoves := legalMoves + [Tupled(posTo.0, posTo.1)];
      canMoveForward := true;
    }
    assert legalMoves == if canMoveForward then [Tupled(pawn.position.0 + Ahead(pawn.color), pawn.position.1)] else [];
    posTo := (pawn.position.0 + 2 * direction, pawn.position.1);
    if pawn.firstMove && canMoveForward {
      var twoAhead := PyIndex(posTo.0, 8);
      if twoAhead.None? {
        return Err(IndexError);
      }
      if board[twoAhead.value][posTo.1] == null {
        legalMoves := legalMoves + [Tupled(posTo.0, posTo.1)];
      }
    }
    assert Ok(legalMoves) == PawnPushes(board, pawn.position.0, pawn.position.1, pawn.color, pawn.firstMove);
    ghost var forward := legalMoves;
    if pawn.position.1 - 1 >= 0 {
      posTo := (pawn.position.0 + 1 * direction, pawn.position.1 - 1);
      var piece: Piece? := board[ahead.value][posTo.1];
      if piece != null && piece.color != pawn.color {
        legalMoves := legalMoves + [Tupled(posTo.0, posTo.1)];
      }
    }
    assert legalMoves == forward + PawnCapture(board, ahead.value, pawn.position.0, pawn.position.1, pawn.color, -1);
    ghost var withLeft := legalMoves;
    if pawn.position.1 + 1 <= 7 {
      posTo := (pawn.position.0 + 1 * direction, pawn.position.1 + 1);
      var piece: Piece? := board[ahead.value][posTo.1];
      if piece != null && piece.color != pawn.color {
        legalMoves := legalMoves + [Tupled(posTo.0, posTo.1)];
      }
    }
    assert legalMoves == withLeft + PawnCapture(board, ahead.value, pawn.position.0, pawn.position.1, pawn.color, 1);
    r := Ok(legalMoves);
    if algebraic {
      r := Names(legalMoves);
    }
  }

  /** `piece.calculate_legal_moves(show_in_algebraic_notation=...)` for a piece of any kind. */
  method CalculateLegalMoves(p: Piece, algebraic: bool) returns (r: Result<seq<Entry>>)
    requires IsGrid(p.board.grid) && OnBoard(p.position.0, p.position.1)
    ensures r == PieceLegal(p.board.grid, p, algebraic)
  {
    match p.kind
    case Pawn => r := PawnLegalMoves(p, algebraic);
    case Rook => r := RookLegalMoves(p, algebraic);
    case Queen => r := QueenLegalMoves(p, algebraic);
    case King => r := Ok([]);
    case Knight => r := Err(TypeError);
    case Bishop => r := Err(TypeError);
  }

  /** Every piece of the list refers to `board`. */
  predicate OnItsBoard(ps: seq<Piece>, board: Board)
  {
    forall p :: p in ps ==> p.board == board
  }

  /**
   * `Board.get_legal_moves(color, show_in_algebraic_notation)`, outer loop:
   * the lists of the colour's dictionary in turn.
   */
  method GetLegalMoves(board: Board, color: Color, algebraic: bool) returns (r: Result<seq<Entry>>)
    requires IsGrid(board.grid)
    requires Standing(Flatten(board.PiecesOnBoard(color))) && OnItsBoard(Flatten(board.PiecesOnBoard(color)), board)
    ensures r == old(LegalOfAll(board.grid, Flatten(board.PiecesOnBoard(color)), algebraic))
  {
    var g := board.grid;
    var groups := board.PiecesOnBoard(color);
    ghost var all := Flatten(groups);
    StandingGroups(groups, board);
    ghost var results := GroupResults(g, groups, algebraic);
    FlattenGathered(g, groups, algebraic);
    assert forall o :: o in Occupants(g) ==> allocated(o);
    ghost var whole := Gathered(results);
    var legalMoves: seq<Entry> := [];
    PrependNothing(whole);
    var i := 0;
    assert results[0..] == results;
    while i < |groups|
      invariant 0 <= i <= |groups|
      invariant whole == Prepend(legalMoves, Gathered(results[i..]))
    {
      var pieces := groups[i].pieces;
      GatherAdvance(whole, legalMoves, results, i);
      assert Standing(pieces) && OnItsBoard(pieces, board);
      ghost var expected := LegalOfAll(g, pieces, algebraic);
      assert expected == results[i];
      var moves := GroupLegalMoves(board, pieces, algebraic);
      assert moves == expected;
      if moves.Err? {
        return moves;
      }
      legalMoves := legalMoves + moves.value;
      i := i + 1;
    }
    assert results[i..] == [];
    assert legalMoves + [] == legalMoves;
    r := Ok(legalMoves);
  }

  /** The inner loop of `get_legal_moves`: each piece of one list asked for its moves. */
  method GroupLegalMoves(board: Board, pieces: seq<Piece>, algebraic: bool) returns (r: Result<seq<Entry>>)
    requires IsGrid(board.grid) && Standing(pieces) && OnItsBoard(pieces, board)
    ensures r == old(LegalOfAll(board.grid, pieces, algebraic))
  {
    var g := board.grid;
    ghost var results := PieceResults(g, pieces, algebraic);
    LegalOfAllGathered(g, pieces, algebraic);
    assert forall o :: o in Occupants(g) ==> allocated(o);
    ghost var whole := Gathered(results);
    var legalMoves: seq<Entry> := [];
    PrependNothing(whole);
    var j := 0;
    assert results[0..] == results;
    while j < |pieces|
      invariant 0 <= j <= |pieces|
      invariant whole == Prepend(legalMoves, Gathered(results[j..]))
    {
      var piece := pieces[j];
      GatherAdvance(whole, legalMoves, results, j);
      assert piece in pieces && piece.board == board;
      ghost var expected := PieceLegal(g, piece, algebraic);
      assert expected == results[j];
      var moves := CalculateLegalMoves(piece, algebraic);
      assert moves == expected;
      if moves.Err? {
        return moves;
      }
      legalMoves := legalMoves + moves.value;
      j := j + 1;
    }
    assert results[j..] == [];
    assert legalMoves + [] == legalMoves;
    r := Ok(legalMoves);
  }

  /** Every list of a dictionary whose pieces all stand on the board. */
  predicate GroupsStanding(groups: seq<Group>)
    reads set k, p | 0 <= k < |groups| && p in groups[k].pieces :: p
  {
    forall k :: 0 <= k < |groups| ==> Standing(groups[k].pieces)
  }

  /** What each list of the dictionary gives when its pieces are asked in turn. */
  function GroupResults(g: Grid, groups: seq<Group>, algebraic: bool): (rs: seq<Result<seq<Entry>>>)
    requires IsGrid(g) && GroupsStanding(groups)
    reads Occupants(g), set k, p | 0 <= k < |groups| && p in groups[k].pieces :: p
    ensures |rs| == |groups| && forall k :: 0 <= k < |groups| ==> rs[k] == LegalOfAll(g, groups[k].pieces, algebraic)
  {
    if groups == [] then []
    else
      assert forall k :: 1 <= k < |groups| ==> groups[1..][k - 1] == groups[k];
      [LegalOfAll(g, groups[0].pieces, algebraic)] + GroupResults(g, groups[1..], algebraic)
  }

  /** The pieces of the flattened dictionary stand, list by list, and all refer to `board`. */
  lemma StandingGroups(groups: seq<Group>, board: Board)
    requires Standing(Flatten(groups))
    ensures GroupsStanding(groups)
    ensures OnItsBoard(Flatten(groups), board) ==> forall k :: 0 <= k < |groups| ==> OnItsBoard(groups[k].pieces, board)
  {
    FlattenMembers(groups);
    forall k, p | 0 <= k < |groups| && p in groups[k].pieces
      ensures p in Flatten(groups)
    {
      var j :| 0 <= j < |groups[k].pieces| && groups[k].pieces[j] == p;
    }
  }

  /** The whole side's moves are the lists' results gathered in order. */
  lemma {:induction false} FlattenGathered(g: Grid, groups: seq<Group>, algebraic: bool)
    requires IsGrid(g) && Standing(Flatten(groups)) && GroupsStanding(groups)
    ensures LegalOfAll(g, Flatten(groups), algebraic) == Gathered(GroupResults(g, groups, algebraic))
  {
    if groups != [] {
      var rest := groups[1..];
      assert Flatten(groups) == groups[0].pieces + Flatten(rest);
      LegalOfAllAppend(g, groups[0].pieces, Flatten(rest), algebraic);
      assert GroupsStanding(rest) by {
        assert forall k :: 0 <= k < |rest| ==> rest[k] == groups[k + 1];
      }
      FlattenGathered(g, rest, algebraic);
      assert GroupResults(g, groups, algebraic)[1..] == GroupResults(g, rest, algebraic);
    }
  }

  /** A suffix is its first element followed by the next suffix. */
  lemma Unfold<T>(s: seq<T>, n: nat)
    requires n < |s|
    ensures s[n..] != [] && s[n..][0] == s[n] && s[n..][1..] == s[n + 1..]
  {
  }

  /** Every element of `a` is one of `b`. */
  predicate Within(a: seq<Piece>, b: seq<Piece>)
  {
    forall p :: p in a ==> p in b
  }

  lemma StandingWithin(a: seq<Piece>, b: seq<Piece>)
    requires Standing(b) && Within(a, b)
    ensures Standing(a)
  {
  }

  lemma LegalOfAllCons(g: Grid, ps: seq<Piece>, algebraic: bool)
    requires IsGrid(g) && Standing(ps) && ps != []
    ensures Standing(ps[1..])
    ensures LegalOfAll(g, ps, algebraic) ==
              if PieceLegal(g, ps[0], algebraic).Err? then PieceLegal(g, ps[0], algebraic)
              else Prepend(PieceLegal(g, ps[0], algebraic).value, LegalOfAll(g, ps[1..], algebraic))
  {
  }

  /** The moves of `a + b`: those of `a`, then those of `b`, unless `a` already fails. */
  lemma {:induction false} LegalOfAllAppend(g: Grid, a: seq<Piece>, b: seq<Piece>, algebraic: bool)
    requires IsGrid(g) && Standing(a + b)
    ensures Standing(a) && Standing(b)
    ensures LegalOfAll(g, a + b, algebraic) ==
              if LegalOfAll(g, a, algebraic).Err? then LegalOfAll(g, a, algebraic)
              else Prepend(LegalOfAll(g, a, algebraic).value, LegalOfAll(g, b, algebraic))
  {
    assert Within(a, a + b) && Within(b, a + b);
    StandingWithin(a, a + b);
    StandingWithin(b, a + b);
    if a == [] {
      assert a + b == b;
      PrependNothing(LegalOfAll(g, b, algebraic));
    } else {
      assert (a + b)[0] == a[0] && (a + b)[1..] == a[1..] + b;
      LegalOfAllCons(g, a + b, algebraic);
      LegalOfAllCons(g, a, algebraic);
      LegalOfAllAppend(g, a[1..], b, algebraic);
      var first := PieceLegal(g, a[0], algebraic);
      if first.Ok? && LegalOfAll(g, a[1..], algebraic).Ok? {
        PrependPrepend(first.value, LegalOfAll(g, a[1..], algebraic).value, LegalOfAll(g, b, algebraic));
      }
    }
  }

  lemma PrependNothing(r: Result<seq<Entry>>)
    ensures Prepend([], r) == r
  {
    if r.Ok? {
      assert [] + r.value == r.value;
    }
  }

  lemma PrependPrepend(a: seq<Entry>, b: seq<Entry>, r: Result<seq<Entry>>)
    ensures Prepend(a, Prepend(b, r)) == Prepend(a + b, r)
  {
    if r.Ok? {
      assert a + (b + r.value) == (a + b) + r.value;
    }
  }

  /** A new legacy board cannot list either side's moves: the knights' stub refuses the call. */
  method NewBoardLegalMoves(color: Color, algebraic: bool) returns (r: Result<seq<Entry>>)
    ensures r == Err(TypeError)
  {
    var board := new Board();
    StagePieces(board, color);
    InitialBoardFails(board, color, algebraic);
    ghost var g, all := board.grid, Flatten(board.PiecesOnBoard(color));
    assert forall o :: o in Occupants(g) ==> allocated(o);
    r := GetLegalMoves(board, color, algebraic);
    assert board.grid == g && Flatten(board.PiecesOnBoard(color)) == all;
  }

  // ------------------------------------------------------------- move_to

  /** The argument of `move_to`: a `(row, column)` tuple or a square name. */
  datatype Destination = Coordinates(row: int, column: int) | SquareCalled(name: string)

  /** The tuple `move_to` looks for: the argument itself, or the square its name converts to. */
  function DestinationSquare(to: Destination): Result<(int, int)>
  {
    match to
    case Coordinates(row, column) => Ok((row, column))
    case SquareCalled(name) => FromAlgebraic(name)
  }

  /**
   * `move_to` of pieces/piece.py as written. Pawns and knights are built on
   * pieces/pieces.py, which has no `move_to`; the first move of a rook or a
   * king writes to `board.castleling_rights`, which the legacy board does
   * not have; a tuple found among the legal moves is handed to
   * `board.update_board`, which it does not have either. The legal lists
   * hold empty squares as `[row, column]` lists, never equal to the tuple,
   * so every other target is simply not found.
   */
  function MoveToAsWritten(g: Grid, p: Piece, to: Destination): (r: Result<bool>)
    requires IsGrid(g) && OnBoard(p.position.0, p.position.1)
    reads p, Occupants(g)
    ensures r != Ok(true)
    ensures p.kind == Pawn || p.kind == Knight || (p.firstMove && (p.kind == Rook || p.kind == King)) ==>
              r == Err(AttributeError)
    ensures r == Ok(false) <==>
              (p.kind == Queen || ((p.kind == Rook || p.kind == King) && !p.firstMove)) &&
              DestinationSquare(to).Ok? && PieceLegal(g, p, false).Ok? &&
              Tupled(DestinationSquare(to).value.0, DestinationSquare(to).value.1) !in PieceLegal(g, p, false).value
  {
    if p.kind == Pawn || p.kind == Knight then Err(AttributeError)
    else if p.firstMove && (p.kind == Rook || p.kind == King) then Err(AttributeError)
    else
      var square := DestinationSquare(to);
      if square.Err? then Err(square.error)
      else
        var legal := PieceLegal(g, p, false);
        if legal.Err? then Err(legal.error)
        else if Tupled(square.value.0, square.value.1) in legal.value then Err(AttributeError)
        else Ok(false)
  }

  /** `new_position in legal_moves` as meant: the square is listed, as a list or as a tuple. */
  predicate Reaches(moves: seq<Entry>, s: (int, int))
  {
    OnBoard(s.0, s.1) && (Listed(s.0, s.1) in moves || Tupled(s.0, s.1) in moves)
  }

  /**
   * The grid once `p` has left `from` (if it stood there) for `to`,
   * whatever stood on `to` leaving the grid.
   */
  function Relocated(g: Grid, from: (int, int), to: (int, int), p: Piece): (h: Grid)
    requires IsGrid(g) && OnBoard(from.0, from.1) && OnBoard(to.0, to.1)
    ensures IsGrid(h) && h[to.0][to.1] == p
    ensures from != to ==> h[from.0][from.1] == if g[from.0][from.1] == p then null else g[from.0][from.1]
    ensures forall r, c :: 0 <= r < 8 && 0 <= c < 8 && (r, c) != from && (r, c) != to ==> h[r][c] == g[r][c]
  {
    var cleared := if g[from.0][from.1] == p then g[from.0 := g[from.0][from.1 := null]] else g;
    cleared[to.0 := cleared[to.0][to.1 := p]]
  }

  /**
   * `move_to` as meant: a target among the piece's legal moves takes the
   * piece there (a piece standing on it leaves the grid, and the square the
   * piece stood on is emptied), sets its position
   * and ends its first move; any other target gives False and changes
   * nothing. The legacy board keeps no castling rights, so none are
   * withdrawn. Every grid stays consistent with the positions of its pieces.
   */
  method MoveTo(p: Piece, to: Destination) returns (r: Result<bool>)
    requires IsGrid(p.board.grid) && Consistent(p.board.grid)
    requires OnBoard(p.position.0, p.position.1)
    modifies p, p.board
    ensures r.Err? <==> DestinationSquare(to).Err? || old(PieceLegal(p.board.grid, p, false)).Err?
    ensures r == Ok(true) <==>
              DestinationSquare(to).Ok? && old(PieceLegal(p.board.grid, p, false)).Ok? &&
              Reaches(old(PieceLegal(p.board.grid, p, false)).value, DestinationSquare(to).value)
    ensures r == Ok(true) ==>
              p.position == DestinationSquare(to).value && !p.firstMove &&
              p.board.grid == Relocated(old(p.board.grid), old(p.position), p.position, p)
    ensures r != Ok(true) ==>
              p.position == old(p.position) && p.firstMove == old(p.firstMove) && p.board.grid == old(p.board.grid)
    ensures IsGrid(p.board.grid) && Consistent(p.board.grid)
    ensures p.moveStory == old(p.moveStory) && p.capturedBy == old(p.capturedBy)
    ensures p.canBeCapturedEnPassant == old(p.canBeCapturedEnPassant)
    ensures p.board.whitePieces == old(p.board.whitePieces) && p.board.blackPieces == old(p.board.blackPieces)
    ensures p.board.isInitialBoardSetUp == old(p.board.isInitialBoardSetUp)
  {
    var square := DestinationSquare(to);
    if square.Err? {
      return Err(square.error);
    }
    ghost var expected := PieceLegal(p.board.grid, p, false);
    assert forall o :: o in Occupants(p.board.grid) ==> allocated(o);
    var legal := CalculateLegalMoves(p, false);
    assert legal == expected;
    if legal.Err? {
      return Err(legal.error);
    }
    if !Reaches(legal.value, square.value) {
      return Ok(false);
    }
    Place(p, square.value);
    r := Ok(true);
  }

  /** The move itself: `p` leaves its square for `to`, which becomes its position, and its first move is over. */
  method Place(p: Piece, to: (int, int))
    requires IsGrid(p.board.grid) && Consistent(p.board.grid) && OnBoard(to.0, to.1)
    requires OnBoard(p.position.0, p.position.1)
    modifies p, p.board
    ensures p.position == to && !p.firstMove
    ensures p.board.grid == Relocated(old(p.board.grid), old(p.position), to, p)
    ensures IsGrid(p.board.grid) && Consistent(p.board.grid)
    ensures p.moveStory == old(p.moveStory) && p.capturedBy == old(p.capturedBy)
    ensures p.canBeCapturedEnPassant == old(p.canBeCapturedEnPassant)
    ensures p.board.whitePieces == old(p.board.whitePieces) && p.board.blackPieces == old(p.board.blackPieces)
    ensures p.board.isInitialBoardSetUp == old(p.board.isInitialBoardSetUp)
  {
    var board, from := p.board, p.position;
    var g := board.grid;
    ConsistentHoldsOnce(g, p);
    board.grid := Relocated(g, from, to, p);
    p.position := to;
    p.firstMove := false;
    assert OthersPlaced(g, p, from);
    RelocatedConsistent(g, from, to, p);
  }

  /**
   * `p` stands nowhere but on `from`, and every other piece of the grid on
   * its own square.
   */
  predicate OthersPlaced(g: Grid, p: Piece, from: (int, int))
    requires IsGrid(g)
    reads Occupants(g)
  {
    forall r, c :: 0 <= r < 8 && 0 <= c < 8 && g[r][c] != null ==>
      if g[r][c] == p then (r, c) == from else g[r][c].position == (r, c)
  }

  /** On a consistent grid a piece can stand only on its own square. */
  lemma ConsistentHoldsOnce(g: Grid, p: Piece)
    requires IsGrid(g) && Consistent(g)
    ensures OthersPlaced(g, p, p.position)
  {
    forall r, c | 0 <= r < 8 && 0 <= c < 8 && g[r][c] != null
      ensures if g[r][c] == p then (r, c) == p.position else g[r][c].position == (r, c)
    {
      assert g[r][c] in Occupants(g);
    }
  }

  /** A piece that leaves `from` for `to`, taking `to` as its position, keeps the grid consistent. */
  lemma RelocatedConsistent(g: Grid, from: (int, int), to: (int, int), p: Piece)
    requires IsGrid(g) && OnBoard(from.0, from.1) && OnBoard(to.0, to.1)
    requires OthersPlaced(g, p, from) && p.position == to
    ensures Consistent(Relocated(g, from, to, p))
  {
    var h: Grid := Relocated(g, from, to, p);
    forall r: int, c: int | 0 <= r < 8 && 0 <= c < 8 && h[r][c] != null
      ensures h[r][c].position == (r, c)
    {
      if (r, c) != to {
        assert h[r][c] != p;
        assert g[r][c] in Occupants(g);
      }
    }
  }
}
