/**
 * The first version of the board and its pieces (board/board.py,
 * pieces/pieces.py, pieces/piece.py, pieces/rook.py, pieces/queen.py,
 * pieces/pawn.py): an 8x8 grid of piece objects, the pieces' own move
 * records, the line scans and the move lists of the pawn, the rook and the
 * queen.
 *
 * A scan hands out three kinds of entries that Python keeps apart: an empty
 * square as a list `[row, column]`, a piece object, and (after trimming) a
 * captured piece's position as a tuple `(row, column)`. A tuple never equals
 * a list in Python, so the two stay distinct constructors here.
 */
module LegacyBoard {
  import opened Python
  import opened Notation
  import Scans
  import ChessBoard

  // ------------------------------------------------------------ entries

  /** One element of a scan or of a move list. */
  datatype Entry =
    | Listed(row: int, column: int)    // `[row, column]`
    | Tupled(row: int, column: int)    // `(row, column)`
    | At(piece: Piece)                 // a piece object
    | Name(square: string)             // an algebraic square name

  /** The squares of a path as `[row, column]` entries, in order. */
  function ListedAll(path: seq<(int, int)>): (r: seq<Entry>)
    ensures |r| == |path|
    ensures forall k :: 0 <= k < |r| ==> r[k] == Listed(path[k].0, path[k].1)
  {
    seq(|path|, k requires 0 <= k < |path| => Listed(path[k].0, path[k].1))
  }

  /** A non-empty path lists its first square, then the rest. */
  lemma ListedAllCons(path: seq<(int, int)>)
    requires path != []
    ensures ListedAll(path) == [Listed(path[0].0, path[0].1)] + ListedAll(path[1..])
  {
    var r := [Listed(path[0].0, path[0].1)] + ListedAll(path[1..]);
    assert forall k :: 0 <= k < |path| ==> ListedAll(path)[k] == r[k];
  }

  // --------------------------------------------------------------- grid

  /** `self.board`: rows of cells, `None` for an empty one. */
  type Grid = seq<seq<Piece?>>

  predicate IsGrid(g: Grid)
  {
    |g| == 8 && forall r :: 0 <= r < 8 ==> |g[r]| == 8
  }

  /** A grid of `None` cells. */
  function EmptyGrid(): (g: Grid)
    ensures IsGrid(g)
    ensures forall r, c :: 0 <= r < 8 && 0 <= c < 8 ==> g[r][c] == null
  {
    seq(8, _ => seq(8, _ => null))
  }

  /** What a cell holds, without the object's identity. */
  function CellOf(p: Piece?): Cell
  {
    if p == null then Empty else Occ(p.kind, p.color)
  }

  /** The pieces standing on the grid. */
  function Occupants(g: Grid): set<Piece>
  {
    set r, c | 0 <= r < |g| && 0 <= c < |g[r]| && g[r][c] != null :: g[r][c]
  }

  /** Every piece on the grid has its own square as its position. */
  predicate Consistent(g: Grid)
    requires IsGrid(g)
    reads Occupants(g)
  {
    forall r, c :: 0 <= r < 8 && 0 <= c < 8 && g[r][c] != null ==> g[r][c].position == (r, c)
  }

  /**
   * What `get_square_or_piece(row, column)` gives for a square on the
   * board: its coordinates as a list when it is empty, its piece otherwise.
   */
  function SquareOrPiece(g: Grid, s: (int, int)): (e: Entry)
    requires IsGrid(g) && OnBoard(s.0, s.1)
    ensures e.Listed? <==> g[s.0][s.1] == null
    ensures e.Listed? ==> e == Listed(s.0, s.1)
    ensures e.At? ==> e.piece == g[s.0][s.1] && e.piece in Occupants(g)
  {
    if g[s.0][s.1] == null then Listed(s.0, s.1)
    else
      assert g[s.0][s.1] in Occupants(g);
      At(g[s.0][s.1])
  }

  // -------------------------------------------------------------- scans

  /**
   * The entries a scan collects along `path`: one per square from the
   * start, ending after the first piece when `endAt` is set.
   */
  function Scan(g: Grid, path: seq<(int, int)>, endAt: bool): (r: seq<Entry>)
    requires IsGrid(g) && Scans.OnBoardPath(path)
    ensures |r| <= |path|
    ensures forall k :: 0 <= k < |r| ==> r[k] == SquareOrPiece(g, path[k])
  {
    if path == [] then []
    else
      var e := SquareOrPiece(g, path[0]);
      if e.At? && endAt then [e] else [e] + Scan(g, path[1..], endAt)
  }

  /** One step of a scan from index k of its path. */
  lemma ScanStep(g: Grid, path: seq<(int, int)>, endAt: bool, k: nat)
    requires IsGrid(g) && Scans.OnBoardPath(path) && k < |path|
    ensures Scan(g, path[k..], endAt) ==
              if SquareOrPiece(g, path[k]).At? && endAt then [SquareOrPiece(g, path[k])]
              else [SquareOrPiece(g, path[k])] + Scan(g, path[k + 1..], endAt)
  {
    assert path[k..][0] == path[k] && path[k..][1..] == path[k + 1..];
  }

  /** The loop invariant of `ScanAlong` carried over one square. */
  lemma ScanAdvance(g: Grid, path: seq<(int, int)>, endAt: bool, k: nat, r: seq<Entry>)
    requires IsGrid(g) && Scans.OnBoardPath(path) && k < |path|
    requires Scan(g, path, endAt) == r + Scan(g, path[k..], endAt)
    ensures var e := SquareOrPiece(g, path[k]);
            if e.At? && endAt then Scan(g, path, endAt) == r + [e]
            else Scan(g, path, endAt) == (r + [e]) + Scan(g, path[k + 1..], endAt)
  {
    ScanStep(g, path, endAt, k);
  }

  /**
   * A scan ends early only after a piece and only when told to; when told
   * to, every entry before its last is an empty square.
   */
  lemma {:induction false} ScanShape(g: Grid, path: seq<(int, int)>, endAt: bool)
    requires IsGrid(g) && Scans.OnBoardPath(path)
    ensures !endAt ==> |Scan(g, path, endAt)| == |path|
    ensures endAt ==> forall k :: 0 <= k < |Scan(g, path, endAt)| - 1 ==> Scan(g, path, endAt)[k].Listed?
    ensures |Scan(g, path, endAt)| < |path| ==>
              endAt && |Scan(g, path, endAt)| > 0 && Scan(g, path, endAt)[|Scan(g, path, endAt)| - 1].At?
  {
    if path != [] {
      ScanShape(g, path[1..], endAt);
    }
  }

  /** On a grid without pieces a scan lists every square of its path. */
  lemma {:induction false} ScanEmptyGrid(path: seq<(int, int)>, endAt: bool)
    requires Scans.OnBoardPath(path)
    ensures Scan(EmptyGrid(), path, endAt) == ListedAll(path)
  {
    if path != [] {
      ScanEmptyGrid(path[1..], endAt);
      ListedAllCons(path);
    }
  }

  /** Column d of a square: down the rows for 0, up for 1. */
  function ColumnPath(row: int, column: int, d: nat): seq<(int, int)>
  {
    Scans.Line(if d == 0 then Scans.Down(row) else Scans.Up(row), column, 0)
  }

  /** Row d of a square: down the columns for 0, up for 1. */
  function RowPath(row: int, column: int, d: nat): seq<(int, int)>
  {
    Scans.Line(if d == 0 then Scans.Down(column) else Scans.Up(column), row, 1)
  }

  lemma StraightPathsOnBoard(row: int, column: int)
    requires OnBoard(row, column)
    ensures forall d :: 0 <= d < 2 ==>
              Scans.OnBoardPath(ColumnPath(row, column, d)) && Scans.OnBoardPath(RowPath(row, column, d))
  {
    Scans.LinesOnBoard(row, column, 0);
    Scans.LinesOnBoard(column, row, 1);
  }

  lemma DiagonalPathsOnBoard(row: int, column: int)
    requires OnBoard(row, column)
    ensures forall d :: 0 <= d < 4 ==> Scans.OnBoardPath(Scans.Diagonal(row, column, d))
  {
    forall d | 0 <= d < 4 ensures Scans.OnBoardPath(Scans.Diagonal(row, column, d)) {
      Scans.DiagonalSquares(row, column, d);
    }
  }

  /** Scan of column direction d (0 down, 1 up) from a square. */
  function ColumnScan(g: Grid, row: int, column: int, d: nat, endAt: bool): seq<Entry>
    requires IsGrid(g) && OnBoard(row, column)
  {
    StraightPathsOnBoard(row, column);
    Scan(g, ColumnPath(row, column, if d == 0 then 0 else 1), endAt)
  }

  /** Scan of row direction d (0 down the columns, 1 up) from a square. */
  function RowScan(g: Grid, row: int, column: int, d: nat, endAt: bool): seq<Entry>
    requires IsGrid(g) && OnBoard(row, column)
  {
    StraightPathsOnBoard(row, column);
    Scan(g, RowPath(row, column, if d == 0 then 0 else 1), endAt)
  }

  /** Scan of diagonal d from a square. */
  function DiagonalScan(g: Grid, row: int, column: int, d: nat, endAt: bool): seq<Entry>
    requires IsGrid(g) && OnBoard(row, column) && d < 4
  {
    Scans.DiagonalSquares(row, column, d);
    Scan(g, Scans.Diagonal(row, column, d), endAt)
  }

  /** Walks `path` the way the scan loops do, one `get_square_or_piece` at a time. */
  method ScanAlong(board: Board, path: seq<(int, int)>, endAt: bool) returns (r: seq<Entry>)
    requires IsGrid(board.grid) && Scans.OnBoardPath(path)
    ensures r == Scan(board.grid, path, endAt)
  {
    var g := board.grid;
    r := [];
    var k := 0;
    while k < |path|
      invariant 0 <= k <= |path|
      invariant Scan(g, path, endAt) == r + Scan(g, path[k..], endAt)
    {
      var square := path[k];
      assert OnBoard(square.0, square.1);
      var e := board.GetSquareOrPiece(square.0, square.1).value;
      ScanAdvance(g, path, endAt, k, r);
      r := r + [e];
      if e.At? && endAt {
        return;
      }
      k := k + 1;
    }
    assert path[k..] == [];
  }

  // ----------------------------------------------------------- trimming

  /**
   * The trimming of `Rook._check_moves_list` and of
   * `_check_capturable_moves` with `check_only_last_move`: a list whose last
   * entry is a piece loses it when the piece is of `color`, and has it
   * replaced by the piece's position otherwise. Other lists stay as they are.
   */
  function TrimLast(moves: seq<Entry>, color: Color): (r: seq<Entry>)
    reads if moves != [] && moves[|moves| - 1].At? then {moves[|moves| - 1].piece} else {}
    ensures |moves| == 0 || !moves[|moves| - 1].At? ==> r == moves
    ensures |moves| > 0 && moves[|moves| - 1].At? ==> |r| >= |moves| - 1 && r[..|moves| - 1] == moves[..|moves| - 1]
    ensures |moves| > 0 && moves[|moves| - 1].At? && moves[|moves| - 1].piece.color == color ==>
              |r| == |moves| - 1
    ensures |moves| > 0 && moves[|moves| - 1].At? && moves[|moves| - 1].piece.color != color ==>
              |r| == |moves| &&
              r[|moves| - 1] == Tupled(moves[|moves| - 1].piece.position.0, moves[|moves| - 1].piece.position.1)
  {
    if moves == [] then moves
    else
      var last := moves[|moves| - 1];
      if !last.At? then moves
      else if last.piece.color == color then moves[..|moves| - 1]
      else moves[..|moves| - 1] + [Tupled(last.piece.position.0, last.piece.position.1)]
  }

  /**
   * The loop of `_check_capturable_moves` without `check_only_last_move`,
   * from index `i` on: an own piece is popped, which moves the next entry
   * to index `i` while the enumeration goes on at `i + 1`; an enemy piece
   * is replaced by its position.
   */
  function SweepFrom(moves: seq<Entry>, color: Color, i: nat): (r: seq<Entry>)
    reads set k | 0 <= k < |moves| && moves[k].At? :: moves[k].piece
    ensures |r| <= |moves|
    decreases |moves| - i
  {
    if i >= |moves| then moves
    else if moves[i].At? && moves[i].piece.color == color then
      SweepFrom(moves[..i] + moves[i + 1..], color, i + 1)
    else if moves[i].At? then
      SweepFrom(moves[i := Tupled(moves[i].piece.position.0, moves[i].piece.position.1)], color, i + 1)
    else SweepFrom(moves, color, i + 1)
  }

  /** A piece of the other colour wherever it stands in the list. */
  predicate NoOwnPieces(moves: seq<Entry>, color: Color)
  {
    forall k :: 0 <= k < |moves| && moves[k].At? ==> moves[k].piece.color != color
  }

  /** What a sweep makes of one entry when nothing is popped. */
  function Resolved(e: Entry): Entry
    reads if e.At? then {e.piece} else {}
  {
    if e.At? then Tupled(e.piece.position.0, e.piece.position.1) else e
  }

  /**
   * Without own pieces the sweep pops nothing, so it replaces every enemy
   * piece by its position and keeps every other entry in place.
   */
  lemma {:induction false} SweepWithoutOwnPieces(moves: seq<Entry>, color: Color, i: nat)
    requires i <= |moves| && NoOwnPieces(moves, color)
    ensures |SweepFrom(moves, color, i)| == |moves|
    ensures forall k :: 0 <= k < i ==> SweepFrom(moves, color, i)[k] == moves[k]
    ensures forall k :: i <= k < |moves| ==> SweepFrom(moves, color, i)[k] == Resolved(moves[k])
    decreases |moves| - i
  {
    if i < |moves| {
      if moves[i].At? {
        var next := moves[i := Tupled(moves[i].piece.position.0, moves[i].piece.position.1)];
        assert NoOwnPieces(next, color);
        SweepWithoutOwnPieces(next, color, i + 1);
      } else {
        SweepWithoutOwnPieces(moves, color, i + 1);
      }
    }
  }

  /**
   * The pop shifts the next entry under the enumeration: of two own pieces
   * side by side, the second stays in the list.
   */
  lemma SweepKeepsSecondOwnPiece(p: Piece, q: Piece)
    requires p.color == q.color
    ensures SweepFrom([At(p), At(q)], p.color, 0) == [At(q)]
  {
    var moves := [At(p), At(q)];
    assert moves[..0] + moves[1..] == [At(q)];
  }

  // -------------------------------------------------------------- pieces

  /** A piece's position, first-move flag and move record, as one value. */
  datatype Story = Story(position: (int, int), firstMove: bool, moveStory: seq<(int, (int, int))>)

  /** `move`: the new position, and the first move is over. */
  function Moved(s: Story, to: (int, int)): Story
  {
    s.(position := to, firstMove := false)
  }

  /** `add_move_to_story`: one more `(move_number, position)` record at the end. */
  function Recorded(s: Story, moveNumber: int, to: (int, int)): Story
  {
    s.(moveStory := s.moveStory + [(moveNumber, to)])
  }

  /**
   * `undo_move`: nothing without a record; otherwise the last record goes,
   * its position becomes the piece's, and a record of move 1 makes the next
   * move a first move again.
   */
  function Undone(s: Story): (r: Story)
    ensures s.moveStory == [] ==> r == s
    ensures s.moveStory != [] ==> |r.moveStory| == |s.moveStory| - 1
  {
    if s.moveStory == [] then s
    else
      var last := s.moveStory[|s.moveStory| - 1];
      Story(last.1, if last.0 == 1 then true else s.firstMove, s.moveStory[..|s.moveStory| - 1])
  }

  /**
   * Undoing a record takes back exactly that record, and puts the piece on
   * the square the record names: the square moved to, not the one left.
   */
  lemma UndoTakesBackRecord(s: Story, moveNumber: int, to: (int, int))
    ensures Undone(Recorded(s, moveNumber, to)).moveStory == s.moveStory
    ensures Undone(Recorded(s, moveNumber, to)).position == to
    ensures Undone(Recorded(s, moveNumber, to)).firstMove <==> moveNumber == 1 || s.firstMove
  {
    assert (s.moveStory + [(moveNumber, to)])[..|s.moveStory|] == s.moveStory;
  }

  /**
   * So the record a move makes (the move number and the square reached)
   * does not take the move back: after `move`, `add_move_to_story` and
   * `undo_move` the piece is still on the new square, and a first move
   * (move 1) is a first move again.
   */
  lemma UndoAfterMoveStaysPut(s: Story, moveNumber: int, to: (int, int))
    ensures Undone(Recorded(Moved(s, to), moveNumber, to)).position == to
    ensures Undone(Recorded(Moved(s, to), moveNumber, to)).moveStory == s.moveStory
    ensures Undone(Recorded(Moved(s, to), moveNumber, to)).firstMove <==> moveNumber == 1
  {
    UndoTakesBackRecord(Moved(s, to), moveNumber, to);
  }

  /**
   * A piece of either `Piece` class: the base one of pieces/pieces.py (pawn
   * and knight) and the one of pieces/piece.py (the others), which adds the
   * scans, the trimming and `move_to`.
   */
  class Piece {
    const kind: Kind
    const color: Color
    const board: Board
    var position: (int, int)
    var moveStory: seq<(int, (int, int))>
    var firstMove: bool
    var capturedBy: Piece?
    /** Set on a pawn by the game when it may be taken en passant. */
    var canBeCapturedEnPassant: bool

    constructor (kind: Kind, color: Color, position: (int, int), board: Board)
      ensures this.kind == kind && this.color == color && this.position == position && this.board == board
      ensures moveStory == [] && firstMove && capturedBy == null && !canBeCapturedEnPassant
    {
      this.kind := kind;
      this.color := color;
      this.position := position;
      this.board := board;
      moveStory := [];
      firstMove := true;
      capturedBy := null;
      canBeCapturedEnPassant := false;
    }

    function Snapshot(): Story
      reads this
    {
      Story(position, firstMove, moveStory)
    }

    /** The `is_captured` property. */
    predicate IsCaptured()
      reads this
    {
      capturedBy != null
    }

    /** The `algebraic_pos` property: the square name of the position, a KeyError off the board. */
    function AlgebraicPos(): (r: Result<string>)
      reads this
      ensures r.Ok? <==> OnBoard(position.0, position.1)
      ensures r.Ok? ==> r.value == SquareName(position.0, position.1) && |r.value| == 2
    {
      ToAlgebraic(position.0, position.1)
    }

    /** The `sing_char` property: the letter of the piece's name. */
    function SingChar(): (c: char)
      ensures KindOfLetter(c) == Some(kind)
    {
      LetterNamesKind(kind);
      KindLetter(kind)
    }

    /** `capture`: the captor is recorded, so the piece counts as captured. */
    method Capture(capturedBy: Piece)
      modifies this
      ensures this.capturedBy == capturedBy && IsCaptured()
      ensures Snapshot() == old(Snapshot()) && canBeCapturedEnPassant == old(canBeCapturedEnPassant)
    {
      this.capturedBy := capturedBy;
    }

    /** `move` of pieces/pieces.py. */
    method Move(newPosition: (int, int))
      modifies this
      ensures Snapshot() == Moved(old(Snapshot()), newPosition)
      ensures capturedBy == old(capturedBy) && canBeCapturedEnPassant == old(canBeCapturedEnPassant)
    {
      position := newPosition;
      if firstMove {
        firstMove := false;
      }
    }

    /** `add_move_to_story`. */
    method AddMoveToStory(moveNumber: int, newPosition: (int, int))
      modifies this
      ensures Snapshot() == Recorded(old(Snapshot()), moveNumber, newPosition)
      ensures capturedBy == old(capturedBy) && canBeCapturedEnPassant == old(canBeCapturedEnPassant)
    {
      moveStory := moveStory + [(moveNumber, newPosition)];
    }

    /** `undo_move` (the same in both `Piece` classes). */
    method UndoMove()
      modifies this
      ensures Snapshot() == Undone(old(Snapshot()))
      ensures capturedBy == old(capturedBy) && canBeCapturedEnPassant == old(canBeCapturedEnPassant)
    {
      if moveStory != [] {
        var last := moveStory[|moveStory| - 1];
        moveStory := moveStory[..|moveStory| - 1];
        position := last.1;
        if last.0 == 1 {
          firstMove := true;
        }
      }
    }

    /** `scan_column`: d0 runs down the rows from the piece, d1 up. */
    method ScanColumn(endAt: bool) returns (d0: seq<Entry>, d1: seq<Entry>)
      requires IsGrid(board.grid) && OnBoard(position.0, position.1)
      ensures d0 == ColumnScan(board.grid, position.0, position.1, 0, endAt)
      ensures d1 == ColumnScan(board.grid, position.0, position.1, 1, endAt)
    {
      StraightPathsOnBoard(position.0, position.1);
      d0 := ScanAlong(board, ColumnPath(position.0, position.1, 0), endAt);
      d1 := ScanAlong(board, ColumnPath(position.0, position.1, 1), endAt);
    }

    /** `scan_row`: d0 runs down the columns from the piece, d1 up. */
    method ScanRow(endAt: bool) returns (d0: seq<Entry>, d1: seq<Entry>)
      requires IsGrid(board.grid) && OnBoard(position.0, position.1)
      ensures d0 == RowScan(board.grid, position.0, position.1, 0, endAt)
      ensures d1 == RowScan(board.grid, position.0, position.1, 1, endAt)
    {
      StraightPathsOnBoard(position.0, position.1);
      d0 := ScanAlong(board, RowPath(position.0, position.1, 0), endAt);
      d1 := ScanAlong(board, RowPath(position.0, position.1, 1), endAt);
    }

    /** `scan_diagonals`: the four `zip`s of a falling or rising row range with a column range. */
    method ScanDiagonals(endAt: bool) returns (d0: seq<Entry>, d1: seq<Entry>, d2: seq<Entry>, d3: seq<Entry>)
      requires IsGrid(board.grid) && OnBoard(position.0, position.1)
      ensures d0 == DiagonalScan(board.grid, position.0, position.1, 0, endAt)
      ensures d1 == DiagonalScan(board.grid, position.0, position.1, 1, endAt)
      ensures d2 == DiagonalScan(board.grid, position.0, position.1, 2, endAt)
      ensures d3 == DiagonalScan(board.grid, position.0, position.1, 3, endAt)
    {
      d0 := ScanDiagonal(0, endAt);
      d1 := ScanDiagonal(1, endAt);
      d2 := ScanDiagonal(2, endAt);
      d3 := ScanDiagonal(3, endAt);
    }

    /** One loop of `scan_diagonals`. */
    method ScanDiagonal(d: nat, endAt: bool) returns (r: seq<Entry>)
      requires IsGrid(board.grid) && OnBoard(position.0, position.1) && d < 4
      ensures r == DiagonalScan(board.grid, position.0, position.1, d, endAt)
    {
      Scans.DiagonalSquares(position.0, position.1, d);
      r := ScanAlong(board, Scans.Diagonal(position.0, position.1, d), endAt);
    }

    /** `_check_capturable_moves(moves, check_only_last_move)`. */
    method CheckCapturableMoves(moves: seq<Entry>, checkOnlyLastMove: bool) returns (r: seq<Entry>)
      ensures checkOnlyLastMove ==> r == TrimLast(moves, color)
      ensures !checkOnlyLastMove ==> r == SweepFrom(moves, color, 0)
    {
      if |moves| == 0 {
        return moves;
      }
      if checkOnlyLastMove {
        var last := moves[|moves| - 1];
        r := moves;
        if last.At? {
          if last.piece.color == color {
            r := moves[..|moves| - 1];
          } else {
            r := moves[..|moves| - 1] + [Tupled(last.piece.position.0, last.piece.position.1)];
          }
        }
      } else {
        r := moves;
        var index := 0;
        while index < |r|
          invariant 0 <= index
          invariant SweepFrom(r, color, index) == SweepFrom(moves, color, 0)
          decreases |r| - index
        {
          if r[index].At? {
            var move := r[index];
            if move.piece.color == color {
              r := r[..index] + r[index + 1..];
            } else {
              r := r[index := Tupled(move.piece.position.0, move.piece.position.1)];
            }
          }
          index := index + 1;
        }
      }
    }
  }

  /** The letter of a kind names that kind back. */
  lemma LetterNamesKind(k: Kind)
    ensures KindOfLetter(KindLetter(k)) == Some(k)
  {
  }

  // -------------------------------------------------------------- board

  /** One entry of `white_pieces` / `black_pieces`: a `PieceName` key and its list. */
  datatype Group = Group(kind: Kind, pieces: seq<Piece>)

  /** The `piece` argument of `add_piece`: a piece object, or a `PieceName` to create one from. */
  datatype Placed = Existing(piece: Piece) | Named(kind: Kind)

  /** `groups[kind]`: the list under the key, `None` when the key is missing. */
  function KindList(groups: seq<Group>, k: Kind): (r: Option<seq<Piece>>)
    ensures r.Some? <==> exists i :: 0 <= i < |groups| && groups[i].kind == k
    ensures r.Some? ==> exists i :: 0 <= i < |groups| && groups[i] == Group(k, r.value)
  {
    if groups == [] then None
    else if groups[0].kind == k then Some(groups[0].pieces)
    else
      var r := KindList(groups[1..], k);
      assert forall i :: 0 <= i < |groups| - 1 ==> groups[1..][i] == groups[i + 1];
      r
  }

  // ------------------------------------------------------------- set-up

  /** The kinds in the order of the set-up helpers (and so of the dictionary keys). */
  const SetUpOrder: seq<Kind> := [Pawn, Knight, Bishop, Rook, Queen, King]

  /** The place of a kind in `SetUpOrder`. */
  function StageOf(k: Kind): (n: nat)
    ensures n < 6 && SetUpOrder[n] == k
  {
    match k
    case Pawn => 0
    case Knight => 1
    case Bishop => 2
    case Rook => 3
    case Queen => 4
    case King => 5
  }

  /** The columns a set-up helper fills, in the order it adds the pieces. */
  function SetUpColumns(k: Kind): (cs: seq<int>)
    ensures forall j :: 0 <= j < |cs| ==> 0 <= cs[j] < 8
    ensures forall i, j :: 0 <= i < j < |cs| ==> cs[i] != cs[j]
  {
    match k
    case Pawn => [0, 1, 2, 3, 4, 5, 6, 7]
    case Knight => [1, 6]
    case Bishop => [2, 5]
    case Rook => [0, 7]
    case Queen => [3]
    case King => [4]
  }

  /** The row a set-up helper fills for a colour: 1 and 6 for pawns, 0 and 7 otherwise. */
  function HomeRow(k: Kind, color: Color): (r: int)
    ensures 0 <= r < 8
  {
    if k == Pawn then (if color == White then 1 else 6) else (if color == White then 0 else 7)
  }

  /** A square the helper for `k` fills, for one colour or the other. */
  predicate SetUpSquare(k: Kind, r: int, c: int)
  {
    (r == HomeRow(k, White) || r == HomeRow(k, Black)) && c in SetUpColumns(k)
  }

  /**
   * The squares the helper for `k` fills are exactly the squares of the
   * starting position that hold a piece of kind `k`, and the colour is the
   * one of the row's half of the board.
   */
  lemma SetUpSquares(k: Kind, r: int, c: int)
    requires OnBoard(r, c)
    ensures SetUpSquare(k, r, c) <==> ChessBoard.InitialCell(r, c).Occ? && ChessBoard.InitialCell(r, c).kind == k
    ensures SetUpSquare(k, r, c) ==> ChessBoard.InitialCell(r, c) == Occ(k, ChessBoard.RankColor(r))
  {
    assert c == 0 || c == 1 || c == 2 || c == 3 || c == 4 || c == 5 || c == 6 || c == 7;
  }

  /** The helper for each kind places as many pieces as the starting position has. */
  lemma SetUpCounts(k: Kind)
    ensures |SetUpColumns(k)| == ChessBoard.InitialCount(k)
  {
  }

  /**
   * The grid after the first n set-up helpers: the starting position,
   * restricted to the kinds those helpers place.
   */
  predicate StageGrid(g: Grid, n: nat)
    requires IsGrid(g)
  {
    forall r, c :: 0 <= r < 8 && 0 <= c < 8 ==>
      CellOf(g[r][c]) == (var cell := ChessBoard.InitialCell(r, c);
                          if cell.Occ? && StageOf(cell.kind) < n then cell else Empty)
  }

  /** After all six helpers the grid is the starting position. */
  lemma FullStageIsInitial(g: Grid)
    requires IsGrid(g) && StageGrid(g, 6)
    ensures forall r, c :: 0 <= r < 8 && 0 <= c < 8 ==> CellOf(g[r][c]) == ChessBoard.InitialCell(r, c)
  {
  }

  /** The list of kind `k` and colour `color`: the pieces of its squares, in the order they were added. */
  predicate GroupAt(group: Group, k: Kind, color: Color, g: Grid)
    requires IsGrid(g)
  {
    group.kind == k && |group.pieces| == |SetUpColumns(k)| &&
    forall j :: 0 <= j < |group.pieces| ==> group.pieces[j] == g[HomeRow(k, color)][SetUpColumns(k)[j]]
  }

  /** The dictionary of one colour after the first n helpers. */
  predicate StageGroups(groups: seq<Group>, color: Color, g: Grid, n: nat)
    requires IsGrid(g)
  {
    |groups| == n && n <= 6 && forall i :: 0 <= i < n ==> GroupAt(groups[i], SetUpOrder[i], color, g)
  }

  /**
   * The pieces a helper placed, white on the kind's home row and black on
   * the other, column by column, fill exactly the kind's squares and make
   * its two lists.
   */
  lemma PlacedCells(g0: Grid, g1: Grid, n: nat, white: seq<Piece>, black: seq<Piece>, b: Board)
    requires n < 6 && IsGrid(g0) && IsGrid(g1)
    requires |white| == |SetUpColumns(SetUpOrder[n])| == |black|
    requires forall j :: 0 <= j < |white| ==>
               var c := SetUpColumns(SetUpOrder[n])[j];
               g1[HomeRow(SetUpOrder[n], White)][c] == white[j] && Made(white[j], SetUpOrder[n], White, (HomeRow(SetUpOrder[n], White), c), b) &&
               g1[HomeRow(SetUpOrder[n], Black)][c] == black[j] && Made(black[j], SetUpOrder[n], Black, (HomeRow(SetUpOrder[n], Black), c), b)
    ensures GroupAt(Group(SetUpOrder[n], white), SetUpOrder[n], White, g1)
    ensures GroupAt(Group(SetUpOrder[n], black), SetUpOrder[n], Black, g1)
    ensures forall r, c :: 0 <= r < 8 && 0 <= c < 8 && SetUpSquare(SetUpOrder[n], r, c) ==>
              g1[r][c] != null && CellOf(g1[r][c]) == Occ(SetUpOrder[n], ChessBoard.RankColor(r)) &&
              g1[r][c].position == (r, c) && g1[r][c].board == b &&
              g1[r][c].firstMove && g1[r][c].moveStory == [] &&
              g1[r][c].capturedBy == null && !g1[r][c].canBeCapturedEnPassant
  {
    var k := SetUpOrder[n];
    var cs := SetUpColumns(k);
    forall r, c | 0 <= r < 8 && 0 <= c < 8 && SetUpSquare(k, r, c)
      ensures g1[r][c] != null && CellOf(g1[r][c]) == Occ(k, ChessBoard.RankColor(r)) &&
              g1[r][c].position == (r, c) && g1[r][c].board == b &&
              g1[r][c].firstMove && g1[r][c].moveStory == [] &&
              g1[r][c].capturedBy == null && !g1[r][c].canBeCapturedEnPassant
    {
      var j :| 0 <= j < |cs| && cs[j] == c;
      if r == HomeRow(k, White) {
        assert g1[r][c] == white[j];
      } else {
        assert g1[r][c] == black[j];
      }
    }
  }

  /**
   * A helper that fills the squares of kind `k` with fresh pieces on their
   * own squares and leaves the others as they were keeps every piece on its
   * square, unmoved and on board `b`.
   */
  lemma KeptCells(g0: Grid, g1: Grid, k: Kind, b: Board)
    requires IsGrid(g0) && IsGrid(g1) && Consistent(g0) && Unmoved(g0) && OwnedBy(g0, b)
    requires forall r, c :: 0 <= r < 8 && 0 <= c < 8 && !SetUpSquare(k, r, c) ==> CellOf(g1[r][c]) == CellOf(g0[r][c])
    requires forall r, c :: 0 <= r < 8 && 0 <= c < 8 && !SetUpSquare(k, r, c) ==> g1[r][c] == g0[r][c]
    requires forall r, c :: 0 <= r < 8 && 0 <= c < 8 && SetUpSquare(k, r, c) ==>
               g1[r][c] != null && CellOf(g1[r][c]) == Occ(k, ChessBoard.RankColor(r)) &&
               g1[r][c].position == (r, c) && g1[r][c].board == b &&
               g1[r][c].firstMove && g1[r][c].moveStory == [] &&
               g1[r][c].capturedBy == null && !g1[r][c].canBeCapturedEnPassant
    ensures Consistent(g1) && Unmoved(g1) && OwnedBy(g1, b)
    ensures forall r, c :: 0 <= r < 8 && 0 <= c < 8 ==>
              CellOf(g1[r][c]) == if SetUpSquare(k, r, c) then Occ(k, ChessBoard.RankColor(r)) else CellOf(g0[r][c])
  {
  }

  /** The grid a helper leaves: the squares of its kind filled, the others as they were. */
  lemma StageGridStep(g0: Grid, g1: Grid, n: nat)
    requires IsGrid(g0) && IsGrid(g1) && n < 6 && StageGrid(g0, n)
    requires forall r, c :: 0 <= r < 8 && 0 <= c < 8 ==>
               CellOf(g1[r][c]) == if SetUpSquare(SetUpOrder[n], r, c) then Occ(SetUpOrder[n], ChessBoard.RankColor(r))
                                   else CellOf(g0[r][c])
    ensures StageGrid(g1, n + 1)
  {
    forall r, c | 0 <= r < 8 && 0 <= c < 8
      ensures CellOf(g1[r][c]) == (var cell := ChessBoard.InitialCell(r, c);
                                   if cell.Occ? && StageOf(cell.kind) < n + 1 then cell else Empty)
    {
      SetUpSquares(SetUpOrder[n], r, c);
    }
  }

  /** The lists a helper leaves: the earlier ones still name their squares' pieces, and one more list. */
  lemma StageGroupsStep(groups: seq<Group>, color: Color, g0: Grid, g1: Grid, n: nat, group: Group)
    requires IsGrid(g0) && IsGrid(g1) && n < 6 && StageGroups(groups, color, g0, n)
    requires forall r, c :: 0 <= r < 8 && 0 <= c < 8 && !SetUpSquare(SetUpOrder[n], r, c) ==> g1[r][c] == g0[r][c]
    requires GroupAt(group, SetUpOrder[n], color, g1)
    ensures StageGroups(groups + [group], color, g1, n + 1)
  {
    var gs := groups + [group];
    forall i | 0 <= i < n + 1 ensures GroupAt(gs[i], SetUpOrder[i], color, g1) {
      if i < n {
        GroupKept(groups[i], color, g0, g1, i, n);
      }
    }
  }

  /**
   * What a set-up helper leaves, from what it wrote: the pieces of its kind
   * on their squares and in one more list per colour, all else as it was.
   */
  lemma StageFacts(g0: Grid, g1: Grid, n: nat, whites: seq<Group>, blacks: seq<Group>, w: Group, k: Group, b: Board)
    requires n < 6 && IsGrid(g0) && IsGrid(g1) && StageGrid(g0, n) && Consistent(g0) && Unmoved(g0) && OwnedBy(g0, b)
    requires StageGroups(whites, White, g0, n) && StageGroups(blacks, Black, g0, n)
    requires GroupAt(w, SetUpOrder[n], White, g1) && GroupAt(k, SetUpOrder[n], Black, g1)
    requires forall r, c :: 0 <= r < 8 && 0 <= c < 8 && !SetUpSquare(SetUpOrder[n], r, c) ==> g1[r][c] == g0[r][c]
    requires forall r, c :: 0 <= r < 8 && 0 <= c < 8 && SetUpSquare(SetUpOrder[n], r, c) ==>
               g1[r][c] != null && CellOf(g1[r][c]) == Occ(SetUpOrder[n], ChessBoard.RankColor(r)) &&
               g1[r][c].position == (r, c) && g1[r][c].board == b &&
               g1[r][c].firstMove && g1[r][c].moveStory == [] &&
               g1[r][c].capturedBy == null && !g1[r][c].canBeCapturedEnPassant
    ensures StageGrid(g1, n + 1) && Consistent(g1) && Unmoved(g1) && OwnedBy(g1, b)
    ensures StageGroups(whites + [w], White, g1, n + 1) && StageGroups(blacks + [k], Black, g1, n + 1)
  {
    KeptCells(g0, g1, SetUpOrder[n], b);
    StageGridStep(g0, g1, n);
    StageGroupsStep(whites, White, g0, g1, n, w);
    StageGroupsStep(blacks, Black, g0, g1, n, k);
  }

  /** A list of an earlier helper is untouched by the helper in place n. */
  lemma GroupKept(group: Group, color: Color, g0: Grid, g1: Grid, i: nat, n: nat)
    requires IsGrid(g0) && IsGrid(g1) && i < n < 6 && GroupAt(group, SetUpOrder[i], color, g0)
    requires forall r, c :: 0 <= r < 8 && 0 <= c < 8 && !SetUpSquare(SetUpOrder[n], r, c) ==> g1[r][c] == g0[r][c]
    ensures GroupAt(group, SetUpOrder[i], color, g1)
  {
    var k, other := SetUpOrder[i], SetUpOrder[n];
    assert k != other;
    forall j | 0 <= j < |SetUpColumns(k)|
      ensures g1[HomeRow(k, color)][SetUpColumns(k)[j]] == g0[HomeRow(k, color)][SetUpColumns(k)[j]]
    {
      var r, c := HomeRow(k, color), SetUpColumns(k)[j];
      assert OnBoard(r, c);
      assert SetUpSquare(k, r, c);
      SetUpSquares(k, r, c);
      SetUpSquares(other, r, c);
      assert !SetUpSquare(other, r, c);
    }
  }

  /** Every piece on the grid is new: no move made, nothing recorded, not captured. */
  predicate Unmoved(g: Grid)
    requires IsGrid(g)
    reads Occupants(g)
  {
    forall r, c :: 0 <= r < 8 && 0 <= c < 8 && g[r][c] != null ==>
      g[r][c].firstMove && g[r][c].moveStory == [] && g[r][c].capturedBy == null && !g[r][c].canBeCapturedEnPassant
  }

  /** Every piece on the grid refers back to `b`. */
  predicate OwnedBy(g: Grid, b: Board)
    requires IsGrid(g)
  {
    forall r, c :: 0 <= r < 8 && 0 <= c < 8 && g[r][c] != null ==> g[r][c].board == b
  }

  /** A piece as `_create_piece` makes it. */
  predicate Made(p: Piece, k: Kind, color: Color, position: (int, int), b: Board)
    reads p
  {
    p.kind == k && p.color == color && p.position == position && p.board == b &&
    p.firstMove && p.moveStory == [] && p.capturedBy == null && !p.canBeCapturedEnPassant
  }

  // -------------------------------------------------------------- board

  class Board {
    var grid: Grid
    var whitePieces: seq<Group>
    var blackPieces: seq<Group>
    var isInitialBoardSetUp: bool

    /** `Board()`: empty dictionaries, then the initial set-up. */
    constructor ()
      ensures isInitialBoardSetUp && Stage(6)
      ensures forall r, c :: 0 <= r < 8 && 0 <= c < 8 ==> CellOf(grid[r][c]) == ChessBoard.InitialCell(r, c)
    {
      grid := [];
      whitePieces := [];
      blackPieces := [];
      isInitialBoardSetUp := false;
      new;
      var r := CreateInitialBoardSetUp();
      FullStageIsInitial(grid);
    }

    /** `pieces_on_board[color]`. */
    function PiecesOnBoard(color: Color): seq<Group>
      reads this
    {
      if color == White then whitePieces else blackPieces
    }

    /**
     * The board after the first n set-up helpers: the grid and both
     * dictionaries as far as those helpers go, every piece new, on its own
     * square and on this board.
     */
    ghost predicate Stage(n: nat)
      reads this, Occupants(grid)
    {
      IsGrid(grid) && StageGrid(grid, n) &&
      StageGroups(whitePieces, White, grid, n) && StageGroups(blackPieces, Black, grid, n) &&
      Consistent(grid) && Unmoved(grid) && OwnedBy(grid, this)
    }

    /**
     * `get_square_or_piece(row, column)`: Python indexing, so a negative
     * index counts from the end and one past it is an IndexError; the
     * coordinates are handed back as given.
     */
    function GetSquareOrPiece(row: int, column: int): (r: Result<Entry>)
      requires IsGrid(grid)
      reads this
      ensures r.Err? <==> PyIndex(row, 8).None? || PyIndex(column, 8).None?
      ensures r.Err? ==> r.error == IndexError
      ensures OnBoard(row, column) ==> r == Ok(SquareOrPiece(grid, (row, column)))
    {
      var i := PyIndex(row, 8);
      var j := PyIndex(column, 8);
      if i.None? || j.None? then Err(IndexError)
      else if grid[i.value][j.value] == null then Ok(Listed(row, column))
      else Ok(At(grid[i.value][j.value]))
    }

    /** `create_empty_board`: a new grid, leaving the board's own untouched. */
    function CreateEmptyBoard(): (g: Grid)
      ensures g == EmptyGrid()
    {
      seq(8, _ => seq(8, _ => null))
    }

    /**
     * The double-king guard of `add_piece`, active once the set-up is
     * complete: a king (by object or by name) is refused while its colour's
     * king list is not empty; a named king without a colour, or a missing
     * key, fails the dictionary lookup.
     */
    function KingGuard(piece: Placed, color: Option<Color>): (r: Result<()>)
      reads this
      ensures r.Ok? <==> !isInitialBoardSetUp || KingColor(piece, color).None? ||
                         (KingColor(piece, color).value.Some? &&
                          KindList(PiecesOnBoard(KingColor(piece, color).value.value), King) == Some([]))
    {
      var king := KingColor(piece, color);
      if !isInitialBoardSetUp || king.None? then Ok(())
      else if king.value.None? then Err(KeyError)
      else
        var kings := KindList(PiecesOnBoard(king.value.value), King);
        if kings.None? then Err(KeyError)
        else if kings.value != [] then Err(ValueError)
        else Ok(())
    }

    /**
     * Where `add_piece` writes, as indices into the grid, or the error it
     * raises first: the king guard, then (when asked to) the emptiness
     * check, then the missing colour of a named piece, then the write. A
     * piece object brings its own position; `board[row][column]` indexes
     * the Python way.
     */
    function AddTarget(piece: Placed, color: Option<Color>, row: int, column: int, checkEmpty: bool): (r: Result<(nat, nat)>)
      requires IsGrid(grid)
      reads this, if piece.Existing? then {piece.piece} else {}
      ensures r.Ok? ==> KingGuard(piece, color).Ok?
      ensures r.Ok? ==> r.value.0 < 8 && r.value.1 < 8
      ensures r.Ok? && checkEmpty ==> grid[r.value.0][r.value.1] == null
      ensures r.Ok? && piece.Named? ==> color.Some?
      ensures r.Ok? ==> Some(r.value.0) == PyIndex(Square(piece, row, column).0, 8) &&
                        Some(r.value.1) == PyIndex(Square(piece, row, column).1, 8)
    {
      var guard := KingGuard(piece, color);
      if guard.Err? then Err(guard.error)
      else
        var at := Square(piece, row, column);
        var i := PyIndex(at.0, 8);
        var j := PyIndex(at.1, 8);
        if checkEmpty && (i.None? || j.None?) then Err(IndexError)
        else if checkEmpty && grid[i.value][j.value] != null then Err(ValueError)
        else if piece.Named? && color.None? then Err(ValueError)
        else if i.None? || j.None? then Err(IndexError)
        else Ok((i.value, j.value))
    }

    /** `add_piece` with a row and a column (the algebraic form is not part of this model). */
    method AddPiece(piece: Placed, color: Option<Color>, row: int, column: int, checkEmpty: bool) returns (r: Result<Piece>)
      requires IsGrid(grid)
      modifies this
      ensures IsGrid(grid)
      ensures whitePieces == old(whitePieces) && blackPieces == old(blackPieces)
      ensures isInitialBoardSetUp == old(isInitialBoardSetUp)
      ensures r.Err? <==> old(AddTarget(piece, color, row, column, checkEmpty)).Err?
      ensures r.Err? ==> r.error == old(AddTarget(piece, color, row, column, checkEmpty)).error && grid == old(grid)
      ensures r.Ok? ==>
                var at := old(AddTarget(piece, color, row, column, checkEmpty)).value;
                grid == old(grid)[at.0 := old(grid)[at.0][at.1 := r.value]]
      ensures r.Ok? && piece.Existing? ==> r.value == piece.piece
      ensures r.Ok? && piece.Named? ==> fresh(r.value) && Made(r.value, piece.kind, color.value, (row, column), this)
    {
      if isInitialBoardSetUp {
        var isKing := false;
        var kingColor: Option<Color> := None;
        if piece.Named? {
          if piece.kind == King {
            isKing := true;
            kingColor := color;
          }
        } else if piece.piece.kind == King {
          isKing := true;
          kingColor := Some(piece.piece.color);
        }
        if isKing {
          if kingColor.None? {
            return Err(KeyError);
          }
          var kings := KindList(PiecesOnBoard(kingColor.value), King);
          if kings.None? {
            return Err(KeyError);
          }
          if kings.value != [] {
            return Err(ValueError);
          }
        }
      }
      var at := (row, column);
      if piece.Existing? {
        at := piece.piece.position;
      }
      var i := PyIndex(at.0, 8);
      var j := PyIndex(at.1, 8);
      if checkEmpty {
        if i.None? || j.None? {
          return Err(IndexError);
        }
        if grid[i.value][j.value] != null {
          return Err(ValueError);
        }
      }
      var placed: Piece;
      if piece.Named? {
        if color.None? {
          return Err(ValueError);
        }
        placed := new Piece(piece.kind, color.value, (row, column), this);
      } else {
        placed := piece.piece;
      }
      if i.None? || j.None? {
        return Err(IndexError);
      }
      grid := grid[i.value := grid[i.value][j.value := placed]];
      return Ok(placed);
    }

    /** `add_piece(piece=<name>, piece_color=<colour>, row=.., column=..)` on an empty square during the set-up. */
    method PlaceOne(k: Kind, color: Color, row: int, column: int) returns (p: Piece)
      requires IsGrid(grid) && !isInitialBoardSetUp && OnBoard(row, column) && grid[row][column] == null
      modifies this
      ensures IsGrid(grid) && fresh(p) && Made(p, k, color, (row, column), this)
      ensures grid == old(grid)[row := old(grid)[row][column := p]]
      ensures whitePieces == old(whitePieces) && blackPieces == old(blackPieces)
      ensures isInitialBoardSetUp == old(isInitialBoardSetUp)
    {
      var r := AddPiece(Named(k), Some(color), row, column, true);
      p := r.value;
    }

    /** The appends of one colour in a set-up helper: the kind's pieces on `row`, column by column. */
    method PlaceRow(k: Kind, color: Color, row: int, columns: seq<int>) returns (placed: seq<Piece>)
      requires IsGrid(grid) && !isInitialBoardSetUp && 0 <= row < 8
      requires forall j :: 0 <= j < |columns| ==> 0 <= columns[j] < 8 && grid[row][columns[j]] == null
      requires forall i, j :: 0 <= i < j < |columns| ==> columns[i] != columns[j]
      modifies this
      ensures IsGrid(grid) && |placed| == |columns|
      ensures forall j :: 0 <= j < |columns| ==>
                grid[row][columns[j]] == placed[j] && fresh(placed[j]) && Made(placed[j], k, color, (row, columns[j]), this)
      ensures forall r, c :: 0 <= r < 8 && 0 <= c < 8 && r != row ==> grid[r][c] == old(grid)[r][c]
      ensures forall c :: 0 <= c < 8 && c !in columns ==> grid[row][c] == old(grid)[row][c]
      ensures whitePieces == old(whitePieces) && blackPieces == old(blackPieces)
      ensures isInitialBoardSetUp == old(isInitialBoardSetUp)
    {
      placed := [];
      var n := 0;
      while n < |columns|
        invariant 0 <= n <= |columns| && IsGrid(grid) && |placed| == n
        invariant forall j :: 0 <= j < n ==>
                    grid[row][columns[j]] == placed[j] && fresh(placed[j]) && Made(placed[j], k, color, (row, columns[j]), this)
        invariant forall j :: n <= j < |columns| ==> grid[row][columns[j]] == null
        invariant forall r, c :: 0 <= r < 8 && 0 <= c < 8 && r != row ==> grid[r][c] == old(grid)[r][c]
        invariant forall c :: 0 <= c < 8 && c !in columns ==> grid[row][c] == old(grid)[row][c]
        invariant whitePieces == old(whitePieces) && blackPieces == old(blackPieces)
        invariant isInitialBoardSetUp == old(isInitialBoardSetUp)
      {
        var p := PlaceOne(k, color, row, columns[n]);
        placed := placed + [p];
        n := n + 1;
      }
    }

    /** `_create_initial_pawn_set_up`: column by column a white pawn on row 1 and a black one on row 6. */
    method CreateInitialPawnSetUp()
      requires !isInitialBoardSetUp && Stage(0)
      modifies this
      ensures !isInitialBoardSetUp && Stage(1)
    {
      ghost var g0 := grid;
      assert forall j :: 0 <= j < 8 ==> SetUpColumns(Pawn)[j] == j;
      assert HomeRow(Pawn, White) == 1 && HomeRow(Pawn, Black) == 6;
      forall c | 0 <= c < 8 ensures grid[1][c] == null && grid[6][c] == null {
        SetUpSquares(Pawn, 1, c);
        SetUpSquares(Pawn, 6, c);
      }
      ghost var whites, blacks := whitePieces, blackPieces;
      var white, black := PlacePawns();
      whitePieces := whitePieces + [Group(Pawn, white)];
      blackPieces := blackPieces + [Group(Pawn, black)];
      StageStep(g0, 0, whites, blacks, white, black);
    }

    /** The loop of `_create_initial_pawn_set_up`: the two lists it fills, column by column. */
    method PlacePawns() returns (white: seq<Piece>, black: seq<Piece>)
      requires IsGrid(grid) && !isInitialBoardSetUp
      requires forall c :: 0 <= c < 8 ==> grid[1][c] == null && grid[6][c] == null
      modifies this
      ensures IsGrid(grid) && |white| == 8 && |black| == 8
      ensures forall j :: 0 <= j < 8 ==>
                grid[1][j] == white[j] && fresh(white[j]) && Made(white[j], Pawn, White, (1, j), this) &&
                grid[6][j] == black[j] && fresh(black[j]) && Made(black[j], Pawn, Black, (6, j), this)
      ensures forall r, c :: 0 <= r < 8 && 0 <= c < 8 && r != 1 && r != 6 ==> grid[r][c] == old(grid)[r][c]
      ensures whitePieces == old(whitePieces) && blackPieces == old(blackPieces) && !isInitialBoardSetUp
    {
      white := [];
      black := [];
      var i := 0;
      while i < 8
        invariant 0 <= i <= 8 && IsGrid(grid) && |white| == i && |black| == i
        invariant forall j :: 0 <= j < i ==>
                    grid[1][j] == white[j] && fresh(white[j]) && Made(white[j], Pawn, White, (1, j), this) &&
                    grid[6][j] == black[j] && fresh(black[j]) && Made(black[j], Pawn, Black, (6, j), this)
        invariant forall c :: i <= c < 8 ==> grid[1][c] == null && grid[6][c] == null
        invariant forall r, c :: 0 <= r < 8 && 0 <= c < 8 && r != 1 && r != 6 ==> grid[r][c] == old(grid)[r][c]
        invariant whitePieces == old(whitePieces) && blackPieces == old(blackPieces) && !isInitialBoardSetUp
      {
        var w, b := PlacePawnPair(i);
        white := white + [w];
        black := black + [b];
        i := i + 1;
      }
    }

    /** One turn of the pawn loop: the white pawn of column i, then the black one. */
    method PlacePawnPair(i: int) returns (w: Piece, b: Piece)
      requires IsGrid(grid) && !isInitialBoardSetUp && 0 <= i < 8 && grid[1][i] == null && grid[6][i] == null
      modifies this
      ensures IsGrid(grid) && fresh(w) && fresh(b)
      ensures Made(w, Pawn, White, (1, i), this) && Made(b, Pawn, Black, (6, i), this)
      ensures grid == old(grid)[1 := old(grid)[1][i := w]][6 := old(grid)[6][i := b]]
      ensures whitePieces == old(whitePieces) && blackPieces == old(blackPieces)
      ensures isInitialBoardSetUp == old(isInitialBoardSetUp)
    {
      w := PlaceOne(Pawn, White, 1, i);
      b := PlaceOne(Pawn, Black, 6, i);
    }

    /** `_create_initial_<kind>_set_up` for the kind in place n of `SetUpOrder` (knight to king). */
    method CreateInitialKindSetUp(n: nat)
      requires 1 <= n < 6 && !isInitialBoardSetUp && Stage(n)
      modifies this
      ensures !isInitialBoardSetUp && Stage(n + 1)
    {
      ghost var g0 := grid;
      var k := SetUpOrder[n];
      ghost var whites, blacks := whitePieces, blackPieces;
      var white, black := PlaceKindRows(n);
      whitePieces := whitePieces + [Group(k, white)];
      blackPieces := blackPieces + [Group(k, black)];
      StageStep(g0, n, whites, blacks, white, black);
    }

    /** The appends of a set-up helper: the white pieces of the kind on row 0, then the black ones on row 7. */
    method PlaceKindRows(n: nat) returns (white: seq<Piece>, black: seq<Piece>)
      requires 1 <= n < 6 && !isInitialBoardSetUp && IsGrid(grid) && StageGrid(grid, n)
      modifies this
      ensures IsGrid(grid) && |white| == |SetUpColumns(SetUpOrder[n])| == |black|
      ensures forall j :: 0 <= j < |white| ==>
                var c := SetUpColumns(SetUpOrder[n])[j];
                grid[HomeRow(SetUpOrder[n], White)][c] == white[j] && fresh(white[j]) &&
                Made(white[j], SetUpOrder[n], White, (HomeRow(SetUpOrder[n], White), c), this) &&
                grid[HomeRow(SetUpOrder[n], Black)][c] == black[j] && fresh(black[j]) &&
                Made(black[j], SetUpOrder[n], Black, (HomeRow(SetUpOrder[n], Black), c), this)
      ensures forall r, c :: 0 <= r < 8 && 0 <= c < 8 && !SetUpSquare(SetUpOrder[n], r, c) ==> grid[r][c] == old(grid)[r][c]
      ensures whitePieces == old(whitePieces) && blackPieces == old(blackPieces)
      ensures isInitialBoardSetUp == old(isInitialBoardSetUp)
    {
      var k := SetUpOrder[n];
      var cs := SetUpColumns(k);
      forall j | 0 <= j < |cs| ensures grid[0][cs[j]] == null && grid[7][cs[j]] == null {
        SetUpSquares(k, 0, cs[j]);
        SetUpSquares(k, 7, cs[j]);
      }
      white := PlaceRow(k, White, 0, cs);
      ghost var g1 := grid;
      black := PlaceRow(k, Black, 7, cs);
      assert HomeRow(k, White) == 0 && HomeRow(k, Black) == 7;
      assert forall j :: 0 <= j < |cs| ==> grid[0][cs[j]] == g1[0][cs[j]] == white[j];
    }

    /**
     * What a helper leaves, from what it wrote: the pieces of its kind on
     * their squares and in two new lists, all else as it was.
     */
    lemma StageStep(g0: Grid, n: nat, whites: seq<Group>, blacks: seq<Group>, white: seq<Piece>, black: seq<Piece>)
      requires n < 6 && IsGrid(g0) && IsGrid(grid) && StageGrid(g0, n) && Consistent(g0) && Unmoved(g0) && OwnedBy(g0, this)
      requires StageGroups(whites, White, g0, n) && StageGroups(blacks, Black, g0, n)
      requires whitePieces == whites + [Group(SetUpOrder[n], white)] && blackPieces == blacks + [Group(SetUpOrder[n], black)]
      requires |white| == |SetUpColumns(SetUpOrder[n])| == |black|
      requires forall j :: 0 <= j < |white| ==>
                 var c := SetUpColumns(SetUpOrder[n])[j];
                 grid[HomeRow(SetUpOrder[n], White)][c] == white[j] && Made(white[j], SetUpOrder[n], White, (HomeRow(SetUpOrder[n], White), c), this) &&
                 grid[HomeRow(SetUpOrder[n], Black)][c] == black[j] && Made(black[j], SetUpOrder[n], Black, (HomeRow(SetUpOrder[n], Black), c), this)
      requires forall r, c :: 0 <= r < 8 && 0 <= c < 8 && !SetUpSquare(SetUpOrder[n], r, c) ==> grid[r][c] == g0[r][c]
      ensures Stage(n + 1)
    {
      PlacedCells(g0, grid, n, white, black, this);
      StageFacts(g0, grid, n, whites, blacks, Group(SetUpOrder[n], white), Group(SetUpOrder[n], black), this);
    }

    /**
     * `create_initial_board_set_up`: refused once done; otherwise a new
     * empty grid, the six helpers in order, and the flag.
     */
    method CreateInitialBoardSetUp() returns (r: Result<()>)
      requires !isInitialBoardSetUp ==> whitePieces == [] && blackPieces == []
      modifies this
      ensures old(isInitialBoardSetUp) ==>
                r == Err(ValueError) && isInitialBoardSetUp &&
                grid == old(grid) && whitePieces == old(whitePieces) && blackPieces == old(blackPieces)
      ensures !old(isInitialBoardSetUp) ==> r == Ok(()) && isInitialBoardSetUp && Stage(6)
    {
      if isInitialBoardSetUp {
        return Err(ValueError);
      }
      grid := CreateEmptyBoard();
      FirstHelpers();
      LastHelpers();
      isInitialBoardSetUp := true;
      return Ok(());
    }

    /** The pawn, knight and bishop helpers of `create_initial_board_set_up`, on a new empty grid. */
    method FirstHelpers()
      requires !isInitialBoardSetUp && Stage(0)
      modifies this
      ensures !isInitialBoardSetUp && Stage(3)
    {
      CreateInitialPawnSetUp();
      CreateInitialKindSetUp(1);
      CreateInitialKindSetUp(2);
    }

    /** The rook, queen and king helpers of `create_initial_board_set_up`. */
    method LastHelpers()
      requires !isInitialBoardSetUp && Stage(3)
      modifies this
      ensures !isInitialBoardSetUp && Stage(6)
    {
      CreateInitialKindSetUp(3);
      CreateInitialKindSetUp(4);
      CreateInitialKindSetUp(5);
    }
  }

  /** The square `add_piece` writes: a piece object's own position, else the given row and column. */
  function Square(piece: Placed, row: int, column: int): (int, int)
    reads if piece.Existing? then {piece.piece} else {}
  {
    if piece.Existing? then piece.piece.position else (row, column)
  }

  /** `Some(colour)` when `add_piece` is given a king (by object or by name), with the colour it looks up. */
  function KingColor(piece: Placed, color: Option<Color>): Option<Option<Color>>
  {
    if piece.Named? then (if piece.kind == King then Some(color) else None)
    else if piece.piece.kind == King then Some(Some(piece.piece.color)) else None
  }

  /**
   * `is_position_on_board` as written: a position tuple (always truthy)
   * overrides row and column; a missing or zero row or column is refused
   * by the falsy test before the range test.
   */
  function IsPositionOnBoard(position: Option<(int, int)>, row: Option<int>, column: Option<int>): (r: bool)
    ensures var (ro, co) := if position.Some? then (Some(position.value.0), Some(position.value.1)) else (row, column);
            r <==> ro.Some? && co.Some? && 1 <= ro.value <= 7 && 1 <= co.value <= 7
  {
    var ro := if position.Some? then Some(position.value.0) else row;
    var co := if position.Some? then Some(position.value.1) else column;
    if ro.None? || ro.value == 0 || co.None? || co.value == 0 then false
    else if ro.value < 0 || ro.value > 7 then false
    else if co.value < 0 || co.value > 7 then false
    else true
  }

  /** Row 0 and column 0 are squares of the board, and the check as written refuses them. */
  lemma ZeroRefused(column: int)
    requires 0 <= column < 8
    ensures OnBoard(0, column) && !IsPositionOnBoard(Some((0, column)), None, None)
    ensures OnBoard(column, 0) && !IsPositionOnBoard(None, Some(column), Some(0))
  {
  }

  /** `is_position_on_board` as its description means it: both coordinates given and in 0..7. */
  function IsPositionOnBoardFixed(position: Option<(int, int)>, row: Option<int>, column: Option<int>): (r: bool)
    ensures var (ro, co) := if position.Some? then (Some(position.value.0), Some(position.value.1)) else (row, column);
            r <==> ro.Some? && co.Some? && OnBoard(ro.value, co.value)
  {
    var ro := if position.Some? then Some(position.value.0) else row;
    var co := if position.Some? then Some(position.value.1) else column;
    ro.Some? && co.Some? && 0 <= ro.value < 8 && 0 <= co.value < 8
  }

  /** The fixed check differs from the written one exactly on row or column 0. */
  lemma FixedDiffersOnlyAtZero(position: Option<(int, int)>, row: Option<int>, column: Option<int>)
    ensures IsPositionOnBoardFixed(position, row, column) != IsPositionOnBoard(position, row, column) <==>
              var (ro, co) := if position.Some? then (Some(position.value.0), Some(position.value.1)) else (row, column);
              IsPositionOnBoardFixed(position, row, column) && (ro.value == 0 || co.value == 0)
  {
  }
}
