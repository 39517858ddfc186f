/**
 * The board store: an 8x8 grid of piece references mutated in place, the
 * per-colour index of piece lists, the two piece counters, the castling-rights
 * flags and the set-up flag, together with the piece objects it holds.
 *
 * Pieces are objects: the lists and the grid share references, and removing a
 * piece from a list removes that object (Python compares pieces by identity).
 * A piece's kind, colour, rook side and board never change, so they are
 * `const` fields; its position and flags are mutable.
 */
module ChessBoard {
  import opened Python
  import opened Notation

  /** A chess piece (`Piece` with its `Pawn`, `Rook` and `King` extensions). */
  class Piece {
    const kind: Kind
    const color: Color
    /** The board the piece was created for (`Piece.board`). */
    const board: Board
    /** `Rook.rook_side`; `None` for a rook created without one and for other kinds. */
    const rookSide: Option<RookSide>
    /** `position`, as (row, column). */
    var row: int
    var column: int
    var firstMove: bool
    var capturedBy: Piece?
    /** `move_story`: (move number, row, column) triples. */
    var moveStory: seq<(int, int, int)>
    /** `Pawn.can_be_captured_en_passant`. */
    var canBeCapturedEnPassant: bool
    /** `King.is_in_check`. */
    var isInCheck: bool
    /** The pieces of `pieces_attacking_me` as `get_pieces_attacking_me` last recorded them. */
    var attackingMe: seq<Piece>

    constructor (kind: Kind, color: Color, board: Board, row: int, column: int, rookSide: Option<RookSide>)
      ensures this.kind == kind && this.color == color && this.board == board
      ensures this.rookSide == rookSide && this.row == row && this.column == column
      ensures firstMove && capturedBy == null && moveStory == []
      ensures !canBeCapturedEnPassant && !isInCheck && attackingMe == []
    {
      this.kind := kind;
      this.color := color;
      this.board := board;
      this.rookSide := rookSide;
      this.row := row;
      this.column := column;
      firstMove := true;
      capturedBy := null;
      moveStory := [];
      canBeCapturedEnPassant := false;
      isInCheck := false;
      attackingMe := [];
    }

    /** `is_captured`. */
    predicate IsCaptured()
      reads this
    {
      capturedBy != null
    }

    /** `sing_char`: the SAN letter of the piece's kind. */
    function SignChar(): (s: string)
    {
      [KindLetter(kind)]
    }

    /** `add_move_to_story`. */
    method AddMoveToStory(moveNumber: int, newRow: int, newColumn: int)
      modifies this
      ensures moveStory == old(moveStory) + [(moveNumber, newRow, newColumn)]
      ensures row == old(row) && column == old(column) && firstMove == old(firstMove)
      ensures capturedBy == old(capturedBy)
      ensures canBeCapturedEnPassant == old(canBeCapturedEnPassant) && isInCheck == old(isInCheck)
    {
      moveStory := moveStory + [(moveNumber, newRow, newColumn)];
    }

    /**
     * `capture` (and `Rook.capture`): record the captor; a rook first clears
     * the castling right of its own side on its board. A rook without a side
     * writes a `None` key in Python, which none of the four flags sees.
     */
    method Capture(capturedBy: Piece)
      modifies this, board
      ensures this.capturedBy == capturedBy && IsCaptured()
      ensures row == old(row) && column == old(column) && firstMove == old(firstMove)
      ensures moveStory == old(moveStory)
      ensures canBeCapturedEnPassant == old(canBeCapturedEnPassant) && isInCheck == old(isInCheck)
      ensures board.rights == (if kind == Rook && rookSide.Some?
                               then old(board.rights).Set(color, rookSide.value, false)
                               else old(board.rights))
      ensures board.grid == old(board.grid) && board.pieces == old(board.pieces)
      ensures board.nWhite == old(board.nWhite) && board.nBlack == old(board.nBlack)
      ensures board.isSetUp == old(board.isSetUp)
    {
      if kind == Rook && rookSide.Some? {
        board.rights := board.rights.Set(color, rookSide.value, false);
      }
      this.capturedBy := capturedBy;
    }
  }

  // ------------------------------------------------------ the grid as a value

  type Grid = seq<seq<Piece?>>

  predicate IsGrid(g: Grid)
  {
    |g| == 8 && forall r :: 0 <= r < |g| ==> |g[r]| == 8
  }

  function EmptyGrid(): (g: Grid)
    ensures IsGrid(g)
    ensures forall r, c :: 0 <= r < 8 && 0 <= c < 8 ==> g[r][c] == null
  {
    seq(8, r => seq(8, c => null))
  }

  /** The pieces standing on a grid. */
  function GridPieces(g: Grid): set<Piece>
    requires IsGrid(g)
  {
    set r, c | 0 <= r < 8 && 0 <= c < 8 && g[r][c] != null :: g[r][c]
  }

  /** Every piece on the grid holds its own square as its position. */
  predicate Placed(g: Grid)
    requires IsGrid(g)
    reads GridPieces(g)
  {
    forall r, c :: 0 <= r < 8 && 0 <= c < 8 && g[r][c] != null ==> g[r][c].row == r && g[r][c].column == c
  }

  /** What a cell shows to value-level code. */
  function CellOf(p: Piece?): Cell
  {
    if p == null then Empty else Occ(p.kind, p.color)
  }

  /** The kinds and colours on the grid, the view the FEN, hash and encoder code read. */
  function CellsOf(g: Grid): (v: seq<seq<Cell>>)
    requires IsGrid(g)
    ensures |v| == 8 && forall r :: 0 <= r < 8 ==> |v[r]| == 8
    ensures forall r, c :: 0 <= r < 8 && 0 <= c < 8 ==> v[r][c] == CellOf(g[r][c])
  {
    seq(8, r requires 0 <= r < 8 => seq(8, c requires 0 <= c < 8 => CellOf(g[r][c])))
  }

  /** `board[row][column]` with Python indexing: negative indices count from the end. */
  function Lookup(g: Grid, row: int, column: int): (r: Result<Piece?>)
    requires IsGrid(g)
    ensures r.Err? <==> PyIndex(row, 8).None? || PyIndex(column, 8).None?
    ensures r.Err? ==> r.error == IndexError
    ensures OnBoard(row, column) ==> r == Ok(g[row][column])
  {
    match (PyIndex(row, 8), PyIndex(column, 8))
    case (Some(i), Some(j)) => Ok(g[i][j])
    case _ => Err(IndexError)
  }

  /** `board[row][column] = p` with Python indexing. */
  function Store(g: Grid, row: int, column: int, p: Piece?): (r: Result<Grid>)
    requires IsGrid(g)
    ensures r.Err? <==> PyIndex(row, 8).None? || PyIndex(column, 8).None?
    ensures r.Err? ==> r.error == IndexError
    ensures r.Ok? ==> IsGrid(r.value)
    ensures r.Ok? ==> Lookup(r.value, row, column) == Ok(p)
    ensures r.Ok? ==> forall i, j :: 0 <= i < 8 && 0 <= j < 8 && Some(i) != PyIndex(row, 8)
                        ==> r.value[i][j] == g[i][j]
    ensures r.Ok? ==> forall i, j :: 0 <= i < 8 && 0 <= j < 8 && Some(j) != PyIndex(column, 8)
                        ==> r.value[i][j] == g[i][j]
    ensures r.Ok? ==> forall i, j :: 0 <= i < 8 && 0 <= j < 8 ==> r.value[i][j] == g[i][j] || r.value[i][j] == p
  {
    match (PyIndex(row, 8), PyIndex(column, 8))
    case (Some(i), Some(j)) => Ok(g[i := g[i][j := p]])
    case _ => Err(IndexError)
  }

  /** Every piece on the grid is one of the pieces of its colour and kind list. */
  predicate Indexed(g: Grid, pieces: map<(Color, Kind), seq<Piece>>)
    requires IsGrid(g)
  {
    forall r, c :: 0 <= r < 8 && 0 <= c < 8 && g[r][c] != null ==>
      (g[r][c].color, g[r][c].kind) in pieces && g[r][c] in pieces[(g[r][c].color, g[r][c].kind)]
  }

  /** `get_square_or_piece`'s result: the coordinates of an empty square, or the piece. */
  datatype Entry =
    | Sq(row: int, column: int)
    | At(piece: Piece, row: int, column: int)
    | Alg(name: string)

  function ListOf(pieces: map<(Color, Kind), seq<Piece>>, c: Color, k: Kind): seq<Piece>
  {
    if (c, k) in pieces then pieces[(c, k)] else []
  }

  lemma ListOfUpdate(m: map<(Color, Kind), seq<Piece>>, key: (Color, Kind), v: seq<Piece>, c: Color, k: Kind)
    ensures ListOf(m[key := v], c, k) == if (c, k) == key then v else ListOf(m, c, k)
  {
  }

  /** The argument of `add_piece`: a piece object, or the name of one to create. */
  datatype PieceArg = Existing(p: Piece) | Named(kind: Kind)

  class Board {
    /** `board`: rows of cells, each `None` or a piece. Empty until `create_empty_board`. */
    var grid: Grid
    /** `pieces_on_board[color][name]`; a missing key is a missing dictionary entry. */
    var pieces: map<(Color, Kind), seq<Piece>>
    /** `castleling_rights`. */
    var rights: CastlingRights
    /** `n_white_pieces` / `n_black_pieces`. */
    var nWhite: int
    var nBlack: int
    /** `_is_initial_board_set_up`. */
    var isSetUp: bool

    /**
     * `Board.__init__` up to the optional set-up calls, which `NewBoard`
     * makes: no grid yet, no pieces, every castling right, 16 pieces counted
     * per colour.
     */
    constructor ()
      ensures grid == [] && pieces == map[] && rights == AllRights
      ensures nWhite == 16 && nBlack == 16 && !isSetUp
    {
      grid := [];
      pieces := map[];
      rights := AllRights;
      nWhite := 16;
      nBlack := 16;
      isSetUp := false;
    }

    predicate Valid()
      reads this
    {
      IsGrid(grid)
    }

    /** The kinds and colours on the board. */
    function View(): (v: seq<seq<Cell>>)
      reads this
      requires Valid()
      ensures |v| == 8 && forall r :: 0 <= r < 8 ==> |v[r]| == 8
      ensures forall r, c :: 0 <= r < 8 && 0 <= c < 8 ==> v[r][c] == CellOf(grid[r][c])
    {
      CellsOf(grid)
    }

    /** `get_square_or_piece`. */
    function GetSquareOrPiece(row: int, column: int): (r: Result<Entry>)
      reads this
      requires Valid()
      ensures r.Err? <==> Lookup(grid, row, column).Err?
      ensures r.Err? ==> r.error == IndexError
      ensures r.Ok? ==> (r.value.Sq? <==> Lookup(grid, row, column) == Ok(null))
      ensures r.Ok? && r.value.Sq? ==> r.value == Sq(row, column)
      ensures r.Ok? && r.value.At? ==>
                Lookup(grid, row, column) == Ok(r.value.piece as Piece?) &&
                r.value.row == row && r.value.column == column
    {
      match Lookup(grid, row, column)
      case Err(e) => Err(e)
      case Ok(p) => if p == null then Ok(Sq(row, column)) else Ok(At(p, row, column))
    }

    /** `is_position_empty`. */
    function IsPositionEmpty(row: int, column: int): (r: Result<bool>)
      reads this
      requires Valid()
      ensures r.Err? <==> Lookup(grid, row, column).Err?
      ensures r.Ok? ==> (r.value <==> Lookup(grid, row, column) == Ok(null))
    {
      match Lookup(grid, row, column)
      case Err(e) => Err(e)
      case Ok(p) => Ok(p == null)
    }

    /** `get_piece`: a KeyError for a kind that was never listed. */
    function GetPiece(kind: Kind, color: Color): (r: Result<seq<Piece>>)
      reads this
      ensures r.Err? <==> (color, kind) !in pieces
      ensures r.Err? ==> r.error == KeyError
      ensures r.Ok? ==> r.value == ListOf(pieces, color, kind)
    {
      if (color, kind) in pieces then Ok(pieces[(color, kind)]) else Err(KeyError)
    }

    /** `decrement_piece_count`. */
    method DecrementPieceCount(color: Color)
      modifies this
      ensures nWhite == old(nWhite) - (if color == White then 1 else 0)
      ensures nBlack == old(nBlack) - (if color == Black then 1 else 0)
      ensures grid == old(grid) && pieces == old(pieces) && rights == old(rights)
      ensures isSetUp == old(isSetUp)
    {
      if color == White {
        nWhite := nWhite - 1;
      } else {
        nBlack := nBlack - 1;
      }
    }

    /** `remove_castleling_rights`: both sides of one colour. */
    method RemoveCastlingRights(color: Color)
      modifies this
      ensures !rights.Get(color, KingSide) && !rights.Get(color, QueenSide)
      ensures forall s :: rights.Get(color.Opposite(), s) == old(rights).Get(color.Opposite(), s)
      ensures grid == old(grid) && pieces == old(pieces)
      ensures nWhite == old(nWhite) && nBlack == old(nBlack) && isSetUp == old(isSetUp)
    {
      rights := rights.Set(color, KingSide, false).Set(color, QueenSide, false);
    }

    /** `create_empty_board`. */
    method CreateEmptyBoard()
      modifies this
      ensures Valid() && grid == EmptyGrid()
      ensures pieces == old(pieces) && rights == old(rights)
      ensures nWhite == old(nWhite) && nBlack == old(nBlack) && isSetUp == old(isSetUp)
    {
      grid := EmptyGrid();
    }

    /**
     * `remove_piece`: clear the cell at the piece's own position, then drop
     * the piece from its list. The cell is cleared before the list lookup,
     * so a piece missing from its list still leaves its cell empty.
     */
    method RemovePiece(p: Piece) returns (r: Result<()>)
      requires Valid()
      modifies this
      ensures Valid()
      ensures Store(old(grid), p.row, p.column, null).Err? ==> r == Err(IndexError) && grid == old(grid)
      ensures Store(old(grid), p.row, p.column, null).Ok? ==> grid == Store(old(grid), p.row, p.column, null).value
      ensures Store(old(grid), p.row, p.column, null).Ok? && (p.color, p.kind) !in old(pieces) ==> r == Err(KeyError)
      ensures r.Ok? <==> Store(old(grid), p.row, p.column, null).Ok? && p in ListOf(old(pieces), p.color, p.kind)
      ensures r.Ok? ==> pieces == old(pieces)[(p.color, p.kind) :=
                          RemoveFirst(old(pieces)[(p.color, p.kind)], p).value]
      ensures r.Err? ==> pieces == old(pieces)
      ensures rights == old(rights) && nWhite == old(nWhite) && nBlack == old(nBlack)
      ensures isSetUp == old(isSetUp)
    {
      var cleared := Store(grid, p.row, p.column, null);
      if cleared.Err? {
        return Err(IndexError);
      }
      grid := cleared.value;
      var key := (p.color, p.kind);
      if key !in pieces {
        return Err(KeyError);
      }
      var rest := RemoveFirst(pieces[key], p);
      if rest.Err? {
        return Err(rest.error);
      }
      pieces := pieces[key := rest.value];
      r := Ok(());
    }

    /** Every piece on the grid belongs to this board. */
    predicate Owned()
      reads this
      requires Valid()
    {
      forall r, c :: 0 <= r < 8 && 0 <= c < 8 && grid[r][c] != null ==> grid[r][c].board == this
    }

    /** The pieces on the grid. */
    function OnGrid(): set<Piece>
      reads this
      requires Valid()
    {
      set r, c | 0 <= r < 8 && 0 <= c < 8 && grid[r][c] != null :: grid[r][c]
    }

    /** Whether `add_piece` refuses a king: after set-up, for a colour whose king list is non-empty. */
    function KingClash(arg: PieceArg, pieceColor: Option<Color>): (r: Option<Error>)
      reads this
      ensures r.Some? ==> isSetUp && (arg.Existing? ==> arg.p.kind == King) && (arg.Named? ==> arg.kind == King)
    {
      if !isSetUp then None
      else match arg
        case Existing(p) =>
          if p.kind == King && ListOf(pieces, p.color, King) != [] then Some(ValueError) else None
        case Named(k) =>
          if k != King then None
          else if pieceColor.None? then Some(KeyError)          // `pieces_on_board[None]`
          else if ListOf(pieces, pieceColor.value, King) != [] then Some(ValueError)
          else None
    }

    /**
     * `add_piece`. The square comes from `algebraic_notation` when one is
     * given, and from the piece itself when a piece object is given. Errors:
     * a second king after set-up (ValueError), an occupied square while
     * checking (ValueError), a name without a colour (ValueError), a rook side
     * for a piece that is not a rook (TypeError), and an index off the board
     * (IndexError). On success one cell of the grid changes and the piece is
     * appended to the list of its colour and kind; nothing else changes.
     */
    method AddPiece(arg: PieceArg, pieceColor: Option<Color>, row: int, column: int,
                    algebraicNotation: Option<string>, checkIfPositionIsEmpty: bool,
                    rookSide: Option<RookSide>) returns (r: Result<Piece>)
      requires Valid()
      modifies this
      ensures Valid()
      ensures old(KingClash(arg, pieceColor)).Some? ==> r == Err(old(KingClash(arg, pieceColor)).value)
      ensures r.Ok? ==> old(KingClash(arg, pieceColor)).None?
      ensures r.Ok? ==> old(TargetOf(arg, row, column, algebraicNotation)).Ok?
      ensures r.Ok? ==> var t := old(TargetOf(arg, row, column, algebraicNotation)).value;
                        Store(old(grid), t.0, t.1, r.value).Ok? &&
                        grid == Store(old(grid), t.0, t.1, r.value).value &&
                        (checkIfPositionIsEmpty ==> Lookup(old(grid), t.0, t.1) == Ok(null))
      ensures r.Ok? ==> pieces == old(pieces)[(r.value.color, r.value.kind) :=
                          ListOf(old(pieces), r.value.color, r.value.kind) + [r.value]]
      ensures r.Ok? && arg.Existing? ==> r.value == arg.p
      ensures r.Ok? && arg.Named? ==>
                fresh(r.value) && r.value.kind == arg.kind && pieceColor == Some(r.value.color) &&
                r.value.board == this && r.value.rookSide == rookSide && r.value.firstMove &&
                (r.value.row, r.value.column) == old(TargetOf(arg, row, column, algebraicNotation)).value
      ensures old(KingClash(arg, pieceColor)).None? && old(TargetOf(arg, row, column, algebraicNotation)).Ok? &&
              checkIfPositionIsEmpty ==>
                var t := old(TargetOf(arg, row, column, algebraicNotation)).value;
                Lookup(old(grid), t.0, t.1).Ok? && Lookup(old(grid), t.0, t.1).value != null ==> r == Err(ValueError)
      ensures arg.Named? && pieceColor.None? ==> r.Err?
      ensures arg.Named? && arg.kind != Rook && rookSide.Some? ==> r.Err?
      ensures old(KingClash(arg, pieceColor)).None? && old(TargetOf(arg, row, column, algebraicNotation)).Ok? &&
              (var t := old(TargetOf(arg, row, column, algebraicNotation)).value;
               PyIndex(t.0, 8).Some? && PyIndex(t.1, 8).Some? &&
               (checkIfPositionIsEmpty ==> Lookup(old(grid), t.0, t.1) == Ok(null))) &&
              (arg.Named? ==> pieceColor.Some? && (rookSide.Some? ==> arg.kind == Rook))
              ==> r.Ok?
      ensures r.Err? ==> grid == old(grid) && pieces == old(pieces)
      ensures rights == old(rights) && nWhite == old(nWhite) && nBlack == old(nBlack)
      ensures isSetUp == old(isSetUp)
    {
      var clash := KingClash(arg, pieceColor);
      if clash.Some? {
        return Err(clash.value);
      }
      var target := TargetOf(arg, row, column, algebraicNotation);
      if target.Err? {
        return Err(target.error);
      }
      var (tr, tc) := target.value;
      if checkIfPositionIsEmpty {
        var empty := IsPositionEmpty(tr, tc);
        if empty.Err? {
          return Err(empty.error);
        }
        if !empty.value {
          return Err(ValueError);
        }
      }
      var piece: Piece;
      match arg {
        case Existing(p) =>
          piece := p;
        case Named(k) =>
          if pieceColor.None? {
            return Err(ValueError);
          }
          if k != Rook && rookSide.Some? {
            return Err(TypeError);                 // an unexpected `rook_side` keyword
          }
          piece := new Piece(k, pieceColor.value, this, tr, tc, rookSide);
      }
      var stored := Store(grid, tr, tc, piece);
      if stored.Err? {
        return Err(IndexError);
      }
      grid := stored.value;
      var key := (piece.color, piece.kind);
      pieces := pieces[key := ListOf(pieces, piece.color, piece.kind) + [piece]];
      r := Ok(piece);
    }

    /** The square `add_piece` writes: from the algebraic name, else the piece's own position, else (row, column). */
    function TargetOf(arg: PieceArg, row: int, column: int, algebraicNotation: Option<string>): (r: Result<(int, int)>)
      reads if arg.Existing? then {arg.p} else {}
      ensures r.Ok? && arg.Existing? ==> r.value == (arg.p.row, arg.p.column)
    {
      var named := if algebraicNotation.Some? && algebraicNotation.value != "" then FromAlgebraic(algebraicNotation.value)
                   else Ok((row, column));
      if named.Err? then named
      else if arg.Existing? then Ok((arg.p.row, arg.p.column))
      else named
    }

    /** `is_position_on_board`: a non-empty position tuple overrides `row` and `column`. */
    static function IsPositionOnBoard(position: Option<(int, int)>, row: Option<int>, column: Option<int>): (r: bool)
      ensures position.Some? ==> (r <==> OnBoard(position.value.0, position.value.1))
      ensures position.None? ==> (r <==> row.Some? && column.Some? && OnBoard(row.value, column.value))
    {
      var (rr, cc) := if position.Some? then (Some(position.value.0), Some(position.value.1)) else (row, column);
      if rr.None? || cc.None? then false
      else if rr.value < 0 || rr.value > 7 then false
      else if cc.value < 0 || cc.value > 7 then false
      else true
    }

    /** The piece, if any, on a square: the objects a capture there may touch. */
    function Occupant(row: int, column: int): (s: set<Piece>)
      reads this
      requires Valid()
      ensures s <= OnGrid()
    {
      match Lookup(grid, row, column)
      case Ok(p) => if p == null then {} else {p}
      case Err(_) => {}
    }

    /**
     * `_manage_capture`. For an en-passant capture the victim stands one row
     * behind the target (row - 1 for a white mover, row + 1 otherwise); its
     * cell is cleared first, and an empty cell there is an AttributeError
     * (a coordinate tuple has no `color`). For an ordinary capture an empty
     * target changes nothing; a piece there is marked captured, with itself
     * recorded as captor, which also clears a rook's castling right. Either
     * way the victim's colour loses one from its counter and the victim leaves
     * its list.
     */
    method ManageCapture(row: int, column: int, isEnPassant: bool, pieceColor: Color) returns (r: Result<()>)
      requires Valid() && Owned()
      modifies this, Occupant(VictimRow(row, isEnPassant, pieceColor), column)
      ensures Valid() && isSetUp == old(isSetUp) && rights.Within(old(rights))
      ensures Owned() && OnGrid() <= old(OnGrid())
      ensures forall p: Piece :: p in old(Occupant(VictimRow(row, isEnPassant, pieceColor), column)) ==>
                p.row == old(p.row) && p.column == old(p.column) && p.firstMove == old(p.firstMove)
      ensures var v := old(Lookup(grid, VictimRow(row, isEnPassant, pieceColor), column));
              v.Err? ==> r == Err(IndexError) && grid == old(grid) && pieces == old(pieces) &&
                         nWhite == old(nWhite) && nBlack == old(nBlack) && rights == old(rights)
      ensures var vr := VictimRow(row, isEnPassant, pieceColor);
              isEnPassant && old(Lookup(grid, vr, column)).Ok? ==> grid == Store(old(grid), vr, column, null).value
      ensures !isEnPassant ==> grid == old(grid)
      ensures var v := old(Lookup(grid, VictimRow(row, isEnPassant, pieceColor), column));
              v == Ok(null) ==> r == (if isEnPassant then Err(AttributeError) else Ok(())) &&
                                pieces == old(pieces) && nWhite == old(nWhite) && nBlack == old(nBlack) &&
                                rights == old(rights)
      ensures var v := old(Lookup(grid, VictimRow(row, isEnPassant, pieceColor), column));
              v.Ok? && v.value != null ==>
                var p := v.value;
                nWhite == old(nWhite) - (if p.color == White then 1 else 0) &&
                nBlack == old(nBlack) - (if p.color == Black then 1 else 0) &&
                (!isEnPassant ==> p.capturedBy == p) &&
                rights == (if !isEnPassant && p.kind == Rook && p.rookSide.Some?
                           then old(rights).Set(p.color, p.rookSide.value, false) else old(rights)) &&
                (r.Ok? <==> Unlisted(old(pieces), p).Ok?) &&
                (r.Err? ==> r.error == Unlisted(old(pieces), p).error) &&
                pieces == (if r.Ok? then Unlisted(old(pieces), p).value else old(pieces))
      ensures r == CaptureOutcome(old(grid), old(pieces), row, column, isEnPassant, pieceColor)
      ensures CaptureSettled(old(grid), old(pieces), old(nWhite), old(nBlack), old(rights), row, column, isEnPassant, pieceColor,
                             pieces, nWhite, nBlack, rights)
    {
      var vr := VictimRow(row, isEnPassant, pieceColor);
      var found := GetSquareOrPiece(vr, column);
      if found.Err? {
        return Err(IndexError);
      }
      var victim: Piece;
      if isEnPassant {
        grid := Store(grid, vr, column, null).value;
        if found.value.Sq? {
          return Err(AttributeError);
        }
        victim := found.value.piece;
      } else {
        if !found.value.At? {
          return Ok(());
        }
        victim := found.value.piece;
        victim.Capture(victim);
      }
      DecrementPieceCount(victim.color);
      var rest := Unlisted(pieces, victim);
      if rest.Err? {
        return Err(rest.error);
      }
      pieces := rest.value;
      r := Ok(());
    }

    /**
     * `update_board`: settle the capture on the target, then empty the old
     * cell and put the piece on the new one. The move itself is not checked.
     */
    method UpdateBoard(oldRow: int, oldColumn: int, newRow: int, newColumn: int, piece: Piece, isEnPassant: bool)
      returns (r: Result<()>)
      requires Valid() && Owned()
      modifies this, Occupant(VictimRow(newRow, isEnPassant, piece.color), newColumn)
      ensures Valid() && isSetUp == old(isSetUp) && rights.Within(old(rights))
      ensures piece.board == this ==> Owned()
      ensures OnGrid() <= old(OnGrid()) + {piece}
      ensures forall p: Piece :: p in old(Occupant(VictimRow(newRow, isEnPassant, piece.color), newColumn)) ==>
                p.row == old(p.row) && p.column == old(p.column) && p.firstMove == old(p.firstMove)
      // the cells: the piece on the new one, the old one and the victim's emptied, the rest kept
      ensures UpdatedGrid(old(grid), grid, oldRow, oldColumn, newRow, newColumn,
                          VictimRow(newRow, isEnPassant, piece.color), isEnPassant, piece, r.Ok?)
      // the lists, the counters and the rights are those the capture leaves
      ensures CaptureSettled(old(grid), old(pieces), old(nWhite), old(nBlack), old(rights),
                             newRow, newColumn, isEnPassant, piece.color, pieces, nWhite, nBlack, rights)
      ensures var v := old(Lookup(grid, VictimRow(newRow, isEnPassant, piece.color), newColumn));
              v.Ok? && v.value != null && !isEnPassant ==> v.value.capturedBy == v.value
      // a capture that fails is the answer, with the victim's cell cleared first for en passant
      ensures var c := CaptureOutcome(old(grid), old(pieces), newRow, newColumn, isEnPassant, piece.color);
              var vr := VictimRow(newRow, isEnPassant, piece.color);
              c.Err? ==> r == c && grid == (if isEnPassant && old(Lookup(grid, vr, newColumn)).Ok?
                                            then Store(old(grid), vr, newColumn, null).value else old(grid))
      // once the capture is settled, only the two assignments can fail
      ensures CaptureOutcome(old(grid), old(pieces), newRow, newColumn, isEnPassant, piece.color).Ok? ==>
                (r.Ok? <==> PyIndex(oldRow, 8).Some? && PyIndex(oldColumn, 8).Some? && PyIndex(newRow, 8).Some?) &&
                (r.Err? ==> r.error == IndexError)
    {
      ghost var vr := VictimRow(newRow, isEnPassant, piece.color);
      r := ManageCapture(newRow, newColumn, isEnPassant, piece.color);
      if r.Err? {
        UpdatedCells(old(grid), grid, grid, oldRow, oldColumn, newRow, newColumn, vr, isEnPassant, piece, false);
        return;
      }
      ghost var captured := grid;
      r := Relocate(oldRow, oldColumn, newRow, newColumn, piece);
      UpdatedCells(old(grid), captured, grid, oldRow, oldColumn, newRow, newColumn, vr, isEnPassant, piece, r.Ok?);
    }

    /** The second half of `update_board`: empty the old cell, then put the piece on the new one. */
    method Relocate(oldRow: int, oldColumn: int, newRow: int, newColumn: int, piece: Piece) returns (r: Result<()>)
      requires Valid()
      modifies this
      ensures Valid() && isSetUp == old(isSetUp) && rights == old(rights)
      ensures pieces == old(pieces) && nWhite == old(nWhite) && nBlack == old(nBlack)
      ensures old(Owned()) && piece.board == this ==> Owned()
      ensures OnGrid() <= old(OnGrid()) + {piece}
      ensures r.Err? <==> PyIndex(oldRow, 8).None? || PyIndex(oldColumn, 8).None? ||
                          PyIndex(newRow, 8).None? || PyIndex(newColumn, 8).None?
      ensures r.Err? ==> r.error == IndexError
      ensures r.Err? ==> forall i, j :: 0 <= i < 8 && 0 <= j < 8 &&
                           (Some(i), Some(j)) != (PyIndex(oldRow, 8), PyIndex(oldColumn, 8))
                           ==> grid[i][j] == old(grid)[i][j]
      ensures r.Ok? ==> Lookup(grid, newRow, newColumn) == Ok(piece as Piece?)
      ensures r.Ok? && (PyIndex(oldRow, 8) != PyIndex(newRow, 8) || PyIndex(oldColumn, 8) != PyIndex(newColumn, 8)) ==>
                Lookup(grid, oldRow, oldColumn) == Ok(null)
      ensures r.Ok? ==> forall i, j :: 0 <= i < 8 && 0 <= j < 8 &&
                          (Some(i), Some(j)) != (PyIndex(oldRow, 8), PyIndex(oldColumn, 8)) &&
                          (Some(i), Some(j)) != (PyIndex(newRow, 8), PyIndex(newColumn, 8))
                          ==> grid[i][j] == old(grid)[i][j]
    {
      var cleared := Store(grid, oldRow, oldColumn, null);
      if cleared.Err? {
        return Err(IndexError);
      }
      grid := cleared.value;
      var placed := Store(grid, newRow, newColumn, piece);
      if placed.Err? {
        return Err(IndexError);
      }
      grid := placed.value;
      r := Ok(());
    }

    /**
     * `get_board_representation` without colour codes: a copy of the rows,
     * reversed when asked, each cell shown by `RepresentationCell`.
     */
    method GetBoardRepresentation(reverse: bool, upperCaseDiff: bool, showInAlgebraicNotation: bool)
      returns (rep: seq<seq<string>>)
      requires Valid()
      ensures rep == Representation(View(), reverse, upperCaseDiff, showInAlgebraicNotation)
    {
      var rows := if reverse then Reverse(View()) else View();
      rep := [];
      for rowIndex := 0 to 8
        invariant |rep| == rowIndex
        invariant forall i :: 0 <= i < rowIndex ==>
                    rep[i] == seq(8, j requires 0 <= j < 8 => RepresentationCell(rows[i][j], i, j, upperCaseDiff, showInAlgebraicNotation))
      {
        var currentRow: seq<string> := [];
        for columnIndex := 0 to 8
          invariant |currentRow| == columnIndex
          invariant forall j :: 0 <= j < columnIndex ==>
                      currentRow[j] == RepresentationCell(rows[rowIndex][j], rowIndex, j, upperCaseDiff, showInAlgebraicNotation)
        {
          currentRow := currentRow + [RepresentationCell(rows[rowIndex][columnIndex], rowIndex, columnIndex,
                                                          upperCaseDiff, showInAlgebraicNotation)];
        }
        rep := rep + [currentRow];
      }
    }

    // ------------------------------------------------------ initial set-up

    /** One `add_piece` call of the initial set-up: a named piece on an empty square before set-up. */
    method Place(kind: Kind, color: Color, row: int, column: int, side: Option<RookSide>) returns (p: Piece)
      requires Valid() && !isSetUp && OnBoard(row, column) && grid[row][column] == null
      requires side.Some? ==> kind == Rook
      modifies this
      ensures Valid() && fresh(p) && !isSetUp
      ensures grid == old(grid)[row := old(grid)[row][column := p]]
      ensures p.kind == kind && p.color == color && p.rookSide == side && p.board == this
      ensures pieces == old(pieces)[(color, kind) := ListOf(old(pieces), color, kind) + [p]]
      ensures old(Indexed(grid, pieces)) ==> Indexed(grid, pieces)
      ensures old(Owned()) ==> Owned()
      ensures rights == old(rights) && nWhite == old(nWhite) && nBlack == old(nBlack)
    {
      var r := AddPiece(Named(kind), Some(color), row, column, None, true, side);
      p := r.value;
    }

    /** Both pieces of column `c0`: white at (rowW, c0), then black at (rowB, c0). */
    method PlaceColumn(kind: Kind, rowW: int, rowB: int, c0: int, side: Option<RookSide>)
      requires Valid() && !isSetUp && OnBoard(rowW, c0) && OnBoard(rowB, c0) && rowW != rowB
      requires grid[rowW][c0] == null && grid[rowB][c0] == null
      requires side.Some? ==> kind == Rook
      modifies this
      ensures Valid() && !isSetUp
      ensures grid[rowW][c0] != null && CellOf(grid[rowW][c0]) == Occ(kind, White) && grid[rowW][c0].rookSide == side
      ensures grid[rowB][c0] != null && CellOf(grid[rowB][c0]) == Occ(kind, Black) && grid[rowB][c0].rookSide == side
      ensures forall r :: 0 <= r < 8 && r != rowW && r != rowB ==> grid[r] == old(grid)[r]
      ensures forall r, c :: 0 <= r < 8 && 0 <= c < 8 && (c != c0 || (r != rowW && r != rowB))
                ==> grid[r][c] == old(grid)[r][c]
      ensures forall c, k :: k != kind ==> ListOf(pieces, c, k) == ListOf(old(pieces), c, k)
      ensures forall c :: |ListOf(pieces, c, kind)| == |ListOf(old(pieces), c, kind)| + 1
      ensures old(Indexed(grid, pieces)) ==> Indexed(grid, pieces)
      ensures old(Owned()) ==> Owned()
      ensures rights == old(rights) && nWhite == old(nWhite) && nBlack == old(nBlack)
    {
      ghost var p0 := pieces;
      var w := Place(kind, White, rowW, c0, side);
      ghost var p1 := pieces;
      var b := Place(kind, Black, rowB, c0, side);
      forall c, k ensures ListOf(pieces, c, k) == if k != kind then ListOf(p0, c, k)
                          else ListOf(p0, c, k) + [if c == White then w else b] {
        ListOfUpdate(p0, (White, kind), ListOf(p0, White, kind) + [w], c, k);
        ListOfUpdate(p1, (Black, kind), ListOf(p1, Black, kind) + [b], c, k);
      }
    }

    /** `_create_initial_pawn_set_up`: for each column, a white pawn on row 1 and a black pawn on row 6. */
    method PlacePawns()
      requires Valid() && !isSetUp
      requires forall c :: 0 <= c < 8 ==> grid[1][c] == null && grid[6][c] == null
      modifies this
      ensures Valid() && !isSetUp
      ensures forall c :: 0 <= c < 8 ==> CellOf(grid[1][c]) == InitialCell(1, c) && CellOf(grid[6][c]) == InitialCell(6, c)
      ensures forall r :: 0 <= r < 8 && r != 1 && r != 6 ==> grid[r] == old(grid)[r]
      ensures forall c, k :: |ListOf(pieces, c, k)| == |ListOf(old(pieces), c, k)| + (if k == Pawn then 8 else 0)
      ensures old(Indexed(grid, pieces)) ==> Indexed(grid, pieces)
      ensures old(Owned()) ==> Owned()
      ensures rights == old(rights) && nWhite == old(nWhite) && nBlack == old(nBlack)
    {
      for i := 0 to 8
        invariant Valid() && !isSetUp
        invariant forall c :: 0 <= c < i ==> CellOf(grid[1][c]) == InitialCell(1, c) && CellOf(grid[6][c]) == InitialCell(6, c)
        invariant forall c :: i <= c < 8 ==> grid[1][c] == null && grid[6][c] == null
        invariant forall r :: 0 <= r < 8 && r != 1 && r != 6 ==> grid[r] == old(grid)[r]
        invariant forall c, k :: |ListOf(pieces, c, k)| == |ListOf(old(pieces), c, k)| + (if k == Pawn then i else 0)
        invariant old(Indexed(grid, pieces)) ==> Indexed(grid, pieces)
        invariant old(Owned()) ==> Owned()
        invariant rights == old(rights) && nWhite == old(nWhite) && nBlack == old(nBlack)
      {
        PlaceColumn(Pawn, 1, 6, i, None);
      }
    }

    /**
     * The knight, bishop, rook, queen and king helpers: the back rank of
     * `BackRankKind` on row 0 for white and row 7 for black, rooks carrying
     * their side. Each helper adds its pieces in column order, so placing the
     * back ranks column by column gives every list and every cell the same
     * contents as the helpers' kind-by-kind order.
     */
    method PlaceBackRanks()
      requires Valid() && !isSetUp
      requires forall c :: 0 <= c < 8 ==> grid[0][c] == null && grid[7][c] == null
      modifies this
      ensures Valid() && !isSetUp
      ensures forall c :: 0 <= c < 8 ==> CellOf(grid[0][c]) == InitialCell(0, c) && CellOf(grid[7][c]) == InitialCell(7, c)
      ensures forall c :: 0 <= c < 8 ==>
                grid[0][c] != null && grid[7][c] != null &&
                grid[0][c].rookSide == BackRankSide(c) && grid[7][c].rookSide == BackRankSide(c)
      ensures forall r :: 0 <= r < 8 && r != 0 && r != 7 ==> grid[r] == old(grid)[r]
      ensures forall c, k :: |ListOf(pieces, c, k)| == |ListOf(old(pieces), c, k)| + BackRankCount(k, 8)
      ensures old(Indexed(grid, pieces)) ==> Indexed(grid, pieces)
      ensures old(Owned()) ==> Owned()
      ensures rights == old(rights) && nWhite == old(nWhite) && nBlack == old(nBlack)
    {
      assert forall k :: BackRankCount(k, 0) == 0;
      for i := 0 to 8
        invariant Valid() && !isSetUp
        invariant forall c :: 0 <= c < i ==> CellOf(grid[0][c]) == InitialCell(0, c) && CellOf(grid[7][c]) == InitialCell(7, c)
        invariant forall c :: 0 <= c < i ==>
                    grid[0][c] != null && grid[7][c] != null &&
                    grid[0][c].rookSide == BackRankSide(c) && grid[7][c].rookSide == BackRankSide(c)
        invariant forall c :: i <= c < 8 ==> grid[0][c] == null && grid[7][c] == null
        invariant forall r :: 0 <= r < 8 && r != 0 && r != 7 ==> grid[r] == old(grid)[r]
        invariant forall c, k :: |ListOf(pieces, c, k)| == |ListOf(old(pieces), c, k)| + BackRankCount(k, i)
        invariant old(Indexed(grid, pieces)) ==> Indexed(grid, pieces)
        invariant old(Owned()) ==> Owned()
        invariant rights == old(rights) && nWhite == old(nWhite) && nBlack == old(nBlack)
      {
        ghost var before := pieces;
        PlaceColumn(BackRankKind(i), 0, 7, i, BackRankSide(i));
        assert forall c, k :: |ListOf(pieces, c, k)| == |ListOf(before, c, k)| + (if k == BackRankKind(i) then 1 else 0);
      }
    }

    /** One row of `_setup_board`: every cell that is not "." becomes a piece on (i, column). */
    method SetupRow(i: nat, row: seq<string>) returns (r: Result<()>)
      requires Valid() && !isSetUp
      requires i < 8 ==> forall c :: 0 <= c < 8 ==> grid[i][c] == null
      modifies this
      ensures Valid() && !isSetUp
      ensures r.Ok? <==> RowOk(i, row)
      ensures r.Ok? && i < 8 ==> forall c :: 0 <= c < 8 ==> CellOf(grid[i][c]) == RowCell(row, c)
      ensures forall r' :: 0 <= r' < 8 && r' != i ==> grid[r'] == old(grid)[r']
      ensures old(Indexed(grid, pieces)) ==> Indexed(grid, pieces)
      ensures old(Owned()) ==> Owned()
      ensures rights == old(rights) && nWhite == old(nWhite) && nBlack == old(nBlack)
    {
      r := Ok(());
      for j := 0 to |row|
        invariant Valid() && !isSetUp
        invariant r == Ok(())
        invariant forall c :: 0 <= c < j ==> row[c] != "." ==> SetupCell(row[c]).Ok? && OnBoard(i, c)
        invariant i < 8 ==> forall c :: 0 <= c < 8 ==> CellOf(grid[i][c]) == if c < j then RowCell(row, c) else Empty
        invariant i < 8 ==> forall c :: j <= c < 8 ==> grid[i][c] == null
        invariant forall r' :: 0 <= r' < 8 && r' != i ==> grid[r'] == old(grid)[r']
        invariant old(Indexed(grid, pieces)) ==> Indexed(grid, pieces)
        invariant old(Owned()) ==> Owned()
        invariant rights == old(rights) && nWhite == old(nWhite) && nBlack == old(nBlack)
      {
        if row[j] != "." {
          var cell := SetupCell(row[j]);
          if cell.Err? {
            return Err(cell.error);
          }
          if !OnBoard(i, j) {
            return Err(IndexError);                // `board[row][column]` past the last row or column
          }
          var _ := Place(cell.value.kind, cell.value.color, i, j, None);
        }
      }
      if i < 8 {
        forall c | 0 <= c < 8 ensures CellOf(grid[i][c]) == RowCell(row, c) {
          if c >= |row| {
            assert RowCell(row, c) == Empty;
          }
        }
      }
    }

    /**
     * `_setup_board`: a ValueError when the board is already set up;
     * otherwise a fresh grid with one piece per cell that is not ".", upper
     * case white and anything else black. An unknown piece string or a piece
     * outside the 8x8 grid is an error.
     */
    method SetupBoard(setup: seq<seq<string>>) returns (r: Result<()>)
      modifies this
      ensures old(isSetUp) ==> r == Err(ValueError) && grid == old(grid) && pieces == old(pieces)
      ensures r.Ok? <==> !old(isSetUp) && SetupOk(setup)
      ensures r.Ok? ==> Valid() && isSetUp
      ensures r.Ok? ==> forall i, j :: 0 <= i < 8 && 0 <= j < 8 ==> CellOf(grid[i][j]) == SetupAt(setup, i, j)
      ensures r.Ok? && old(pieces) == map[] ==> Owned() && Indexed(grid, pieces)
      ensures rights == old(rights) && nWhite == old(nWhite) && nBlack == old(nBlack)
    {
      if isSetUp {
        return Err(ValueError);
      }
      CreateEmptyBoard();
      r := SetupRows(setup);
      if r.Err? {
        return;
      }
      isSetUp := true;
    }

    /** The row loop of `_setup_board`, on a freshly emptied grid; the first failing row ends it. */
    method SetupRows(setup: seq<seq<string>>) returns (r: Result<()>)
      requires Valid() && !isSetUp && grid == EmptyGrid()
      modifies this
      ensures Valid() && !isSetUp
      ensures r.Ok? <==> SetupOk(setup)
      ensures r.Ok? ==> forall i, j :: 0 <= i < 8 && 0 <= j < 8 ==> CellOf(grid[i][j]) == SetupAt(setup, i, j)
      ensures Indexed(grid, pieces) && Owned()
      ensures rights == old(rights) && nWhite == old(nWhite) && nBlack == old(nBlack)
    {
      r := Ok(());
      for i := 0 to |setup|
        invariant Valid() && !isSetUp
        invariant forall i' :: 0 <= i' < i ==> RowOk(i', setup[i'])
        invariant forall i', c :: 0 <= i' < 8 && 0 <= c < 8 ==>
                    CellOf(grid[i'][c]) == if i' < i then SetupAt(setup, i', c) else Empty
        invariant forall i', c :: i <= i' < 8 && 0 <= c < 8 ==> grid[i'][c] == null
        invariant Indexed(grid, pieces) && Owned()
        invariant rights == old(rights) && nWhite == old(nWhite) && nBlack == old(nBlack)
        invariant r.Ok?
      {
        ghost var g := grid;
        r := SetupRow(i, setup[i]);
        if r.Err? {
          return;
        }
        forall i', c | 0 <= i' < 8 && 0 <= c < 8 && i' != i ensures grid[i'][c] == g[i'][c] {
          assert grid[i'] == g[i'];
        }
      }
      forall i', c | 0 <= i' < 8 && 0 <= c < 8 ensures CellOf(grid[i'][c]) == SetupAt(setup, i', c) {
        if i' >= |setup| {
          assert SetupAt(setup, i', c) == Empty;
        }
      }
    }

    /**
     * `create_initial_board_set_up`: a ValueError when the board is already
     * set up; otherwise the standard position on a fresh grid. The lists grow
     * by 8 pawns, 2 knights, bishops and rooks and 1 queen and king per colour,
     * the queen-side rooks stand on column 0 and the king-side rooks on
     * column 7, and the counters are left as they were.
     */
    method CreateInitialBoardSetUp() returns (r: Result<()>)
      modifies this
      ensures old(isSetUp) ==> r == Err(ValueError) && grid == old(grid) && pieces == old(pieces)
      ensures !old(isSetUp) ==> r.Ok?
      ensures r.Ok? ==> Valid() && isSetUp && Owned() && Indexed(grid, pieces)
      ensures r.Ok? ==> forall i, j :: 0 <= i < 8 && 0 <= j < 8 ==> CellOf(grid[i][j]) == InitialCell(i, j)
      ensures r.Ok? ==> forall c, k :: |ListOf(pieces, c, k)| == |ListOf(old(pieces), c, k)| + InitialCount(k)
      ensures r.Ok? ==> grid[0][0] != null && grid[0][0].rookSide == Some(QueenSide)
      ensures r.Ok? ==> grid[7][0] != null && grid[7][0].rookSide == Some(QueenSide)
      ensures r.Ok? ==> grid[0][7] != null && grid[0][7].rookSide == Some(KingSide)
      ensures r.Ok? ==> grid[7][7] != null && grid[7][7].rookSide == Some(KingSide)
      ensures rights == old(rights) && nWhite == old(nWhite) && nBlack == old(nBlack)
    {
      if isSetUp {
        return Err(ValueError);
      }
      CreateEmptyBoard();
      ghost var g0 := grid;
      PlacePawns();
      ghost var g1 := grid;
      assert grid[0] == g0[0] && grid[7] == g0[7];
      PlaceBackRanks();
      isSetUp := true;
      forall i, j | 0 <= i < 8 && 0 <= j < 8 ensures CellOf(grid[i][j]) == InitialCell(i, j) {
        if i != 0 && i != 7 {
          assert grid[i] == g1[i];
          if i != 1 && i != 6 {
            assert g1[i] == g0[i];
          }
        }
      }
      forall k: Kind ensures BackRankCount(k, 8) + (if k == Pawn then 8 else 0) == InitialCount(k) {
        BackRankCounts(k);
      }
      r := Ok(());
    }
  }

  /** The row of the piece an en-passant capture on `row` removes: one row behind the mover's target. */
  function VictimRow(row: int, isEnPassant: bool, pieceColor: Color): int
  {
    if isEnPassant then row + (if pieceColor == White then -1 else 1) else row
  }

  /**
   * The cells `update_board` leaves (`g2`) against those it found (`g0`),
   * `ok` telling whether its two assignments succeeded: then the piece
   * stands on the new cell, and the old cell and the en-passant victim's
   * cell are empty; either way every cell but the old one, the new one
   * and the victim's keeps what it held.
   */
  predicate UpdatedGrid(g0: Grid, g2: Grid, oldRow: int, oldColumn: int, newRow: int, newColumn: int,
                        vr: int, isEnPassant: bool, piece: Piece?, ok: bool)
    requires IsGrid(g0) && IsGrid(g2)
  {
    (ok ==> Lookup(g2, newRow, newColumn) == Ok(piece)) &&
    (ok && (PyIndex(oldRow, 8) != PyIndex(newRow, 8) || PyIndex(oldColumn, 8) != PyIndex(newColumn, 8)) ==>
       Lookup(g2, oldRow, oldColumn) == Ok(null)) &&
    (ok && isEnPassant ==> Lookup(g2, vr, newColumn) == Ok(null)) &&
    forall i, j :: 0 <= i < 8 && 0 <= j < 8 &&
      (Some(i), Some(j)) != (PyIndex(oldRow, 8), PyIndex(oldColumn, 8)) &&
      (!ok || (Some(i), Some(j)) != (PyIndex(newRow, 8), PyIndex(newColumn, 8))) &&
      (!isEnPassant || (Some(i), Some(j)) != (PyIndex(vr, 8), PyIndex(newColumn, 8)))
      ==> g2[i][j] == g0[i][j]
  }

  /**
   * `UpdatedGrid` from the two halves of `update_board`: the capture leaves
   * the grid (`g1`) as it was or with the victim's cell cleared, and the
   * assignments then change the old cell and, when they succeed, the new one.
   */
  lemma UpdatedCells(g0: Grid, g1: Grid, g2: Grid, oldRow: int, oldColumn: int, newRow: int, newColumn: int,
                     vr: int, isEnPassant: bool, piece: Piece?, ok: bool)
    requires IsGrid(g0) && IsGrid(g1) && IsGrid(g2)
    requires g1 == g0 || (isEnPassant && Store(g0, vr, newColumn, null).Ok? && g1 == Store(g0, vr, newColumn, null).value)
    requires ok && isEnPassant ==> Store(g0, vr, newColumn, null).Ok? && g1 == Store(g0, vr, newColumn, null).value
    requires isEnPassant ==> vr == newRow - 1 || vr == newRow + 1
    requires ok ==> Lookup(g2, newRow, newColumn) == Ok(piece)
    requires ok && (PyIndex(oldRow, 8) != PyIndex(newRow, 8) || PyIndex(oldColumn, 8) != PyIndex(newColumn, 8)) ==>
               Lookup(g2, oldRow, oldColumn) == Ok(null)
    requires forall i, j :: 0 <= i < 8 && 0 <= j < 8 &&
               (Some(i), Some(j)) != (PyIndex(oldRow, 8), PyIndex(oldColumn, 8)) &&
               (!ok || (Some(i), Some(j)) != (PyIndex(newRow, 8), PyIndex(newColumn, 8)))
               ==> g2[i][j] == g1[i][j]
    ensures UpdatedGrid(g0, g2, oldRow, oldColumn, newRow, newColumn, vr, isEnPassant, piece, ok)
  {
    if ok && isEnPassant {
      var i, j := PyIndex(vr, 8).value, PyIndex(newColumn, 8).value;
      assert Lookup(g1, vr, newColumn) == Ok(null);
      if (Some(i), Some(j)) != (PyIndex(oldRow, 8), PyIndex(oldColumn, 8)) {
        assert Some(i) != PyIndex(newRow, 8);
        assert g2[i][j] == g1[i][j];
      }
    }
  }

  /**
   * What `_manage_capture` answers on a grid and its piece lists: an
   * IndexError when the victim's cell cannot be read, an AttributeError for
   * an empty cell behind an en-passant target, the error of `remove` when the
   * victim is not listed, and success otherwise.
   */
  function CaptureOutcome(g: Grid, pieces: map<(Color, Kind), seq<Piece>>, row: int, column: int,
                          isEnPassant: bool, pieceColor: Color): Result<()>
    requires IsGrid(g)
  {
    match Lookup(g, VictimRow(row, isEnPassant, pieceColor), column)
    case Err(e) => Err(e)
    case Ok(p) =>
      if p == null then (if isEnPassant then Err(AttributeError) else Ok(()))
      else if Unlisted(pieces, p).Err? then Err(Unlisted(pieces, p).error)
      else Ok(())
  }

  /**
   * The piece lists, counters and castling rights `_manage_capture` leaves
   * (the primed ones), from those it found: nothing changes without a
   * victim; a victim costs its colour one from the counter, a rook with a
   * side taken by an ordinary capture its right, and leaves its list when
   * it is listed.
   */
  predicate CaptureSettled(g: Grid, pieces: map<(Color, Kind), seq<Piece>>, nWhite: int, nBlack: int, rights: CastlingRights,
                           row: int, column: int, isEnPassant: bool, pieceColor: Color,
                           pieces': map<(Color, Kind), seq<Piece>>, nWhite': int, nBlack': int, rights': CastlingRights)
    requires IsGrid(g)
  {
    match Lookup(g, VictimRow(row, isEnPassant, pieceColor), column)
    case Err(_) => pieces' == pieces && nWhite' == nWhite && nBlack' == nBlack && rights' == rights
    case Ok(p) =>
      if p == null then pieces' == pieces && nWhite' == nWhite && nBlack' == nBlack && rights' == rights
      else
        nWhite' == nWhite - (if p.color == White then 1 else 0) &&
        nBlack' == nBlack - (if p.color == Black then 1 else 0) &&
        rights' == (if !isEnPassant && p.kind == Rook && p.rookSide.Some?
                    then rights.Set(p.color, p.rookSide.value, false) else rights) &&
        pieces' == (if Unlisted(pieces, p).Ok? then Unlisted(pieces, p).value else pieces)
  }

  /** `pieces_on_board[p.color][p.name].remove(p)`. */
  function Unlisted(pieces: map<(Color, Kind), seq<Piece>>, p: Piece): (r: Result<map<(Color, Kind), seq<Piece>>>)
    ensures (p.color, p.kind) !in pieces ==> r == Err(KeyError)
    ensures (p.color, p.kind) in pieces ==> (r.Ok? <==> p in pieces[(p.color, p.kind)])
    ensures r.Ok? ==> r.value.Keys == pieces.Keys
    ensures r.Ok? ==> multiset(r.value[(p.color, p.kind)]) == multiset(pieces[(p.color, p.kind)]) - multiset{p}
    ensures r.Ok? ==> forall key :: key in pieces && key != (p.color, p.kind) ==> r.value[key] == pieces[key]
  {
    var key := (p.color, p.kind);
    if key !in pieces then Err(KeyError)
    else match RemoveFirst(pieces[key], p)
      case Err(e) => Err(e)
      case Ok(rest) => Ok(pieces[key := rest])
  }

  /**
   * One cell of `get_board_representation` (colour codes off): "." or, with
   * algebraic notation, the square name for an empty cell; the piece letter,
   * followed by the rank digit with algebraic notation, and lowered for black
   * when `upper_case_diff` is set. The square name uses the displayed row.
   */
  function RepresentationCell(cell: Cell, rowIndex: int, columnIndex: int, upperCaseDiff: bool,
                              showInAlgebraicNotation: bool): (s: string)
    requires OnBoard(rowIndex, columnIndex)
    ensures !showInAlgebraicNotation ==> (s == "." <==> cell.Empty?)
    ensures !showInAlgebraicNotation && cell.Occ? ==>
              s == [if upperCaseDiff && cell.color == Black then Lower(KindLetter(cell.kind)) else KindLetter(cell.kind)]
  {
    var algebraic := SquareName(rowIndex, columnIndex);
    match cell
    case Empty => if showInAlgebraicNotation then algebraic else "."
    case Occ(k, c) =>
      var ch := [KindLetter(k)] + (if showInAlgebraicNotation then [algebraic[1]] else "");
      if c == Black && upperCaseDiff then LowerString(ch) else ch
  }

  /** The rows `get_board_representation` returns for a board view. */
  function Representation(view: seq<seq<Cell>>, reverse: bool, upperCaseDiff: bool, showInAlgebraicNotation: bool)
    : seq<seq<string>>
    requires |view| == 8 && forall r :: 0 <= r < 8 ==> |view[r]| == 8
  {
    var rows := if reverse then Reverse(view) else view;
    seq(8, i requires 0 <= i < 8 =>
      seq(8, j requires 0 <= j < 8 => RepresentationCell(rows[i][j], i, j, upperCaseDiff, showInAlgebraicNotation)))
  }

  /** Without square names, the reversed representation is the plain one upside down. */
  lemma RepresentationReverse(view: seq<seq<Cell>>, upperCaseDiff: bool)
    requires |view| == 8 && forall r :: 0 <= r < 8 ==> |view[r]| == 8
    ensures Representation(view, true, upperCaseDiff, false) == Reverse(Representation(view, false, upperCaseDiff, false))
  {
    var a := Representation(view, true, upperCaseDiff, false);
    var b := Reverse(Representation(view, false, upperCaseDiff, false));
    forall i | 0 <= i < 8 ensures a[i] == b[i] {
      forall j | 0 <= j < 8 ensures a[i][j] == b[i][j] {
        assert Reverse(view)[i] == view[7 - i];
        assert RepresentationCell(view[7 - i][j], i, j, upperCaseDiff, false)
            == RepresentationCell(view[7 - i][j], 7 - i, j, upperCaseDiff, false);
      }
    }
  }

  /** How `_setup_board` reads one cell: "." is empty, an upper-case name white, anything else black. */
  function SetupCell(s: string): (r: Result<Cell>)
    ensures s == "." ==> r == Ok(Empty)
    ensures r.Err? ==> r.error == ValueError
  {
    if s == "." then Ok(Empty)
    else
      var color := if IsUpperString(s) then White else Black;
      match GetPieceFromString(UpperString(s))
      case Err(e) => Err(e)
      case Ok(k) => Ok(Occ(k, color))
  }

  /** `_setup_board` reads back what `get_board_representation(upper_case_diff=True)` shows. */
  lemma SetupReadsRepresentation(cell: Cell, rowIndex: int, columnIndex: int)
    requires OnBoard(rowIndex, columnIndex)
    ensures SetupCell(RepresentationCell(cell, rowIndex, columnIndex, true, false)) == Ok(cell)
  {
    if cell.Occ? {
      var letter := KindLetter(cell.kind);
      var s := RepresentationCell(cell, rowIndex, columnIndex, true, false);
      assert UpperString(s) == [letter];
      LetterSelectsKind(cell.kind);
      if cell.color == White {
        assert s == [letter] && IsUpper(s[0]);
      } else {
        assert s == [Lower(letter)] && !IsUpperString(s);
      }
    }
  }

  /** Whether `_setup_board` accepts row `i`: each piece string names a piece and lies on the board. */
  predicate RowOk(i: nat, row: seq<string>)
  {
    forall c :: 0 <= c < |row| ==> row[c] != "." ==> SetupCell(row[c]).Ok? && OnBoard(i, c)
  }

  predicate SetupOk(setup: seq<seq<string>>)
  {
    forall i :: 0 <= i < |setup| ==> RowOk(i, setup[i])
  }

  /** The cell `_setup_board` puts in column `c` of a row; missing cells stay empty. */
  function RowCell(row: seq<string>, c: nat): Cell
  {
    if c < |row| && SetupCell(row[c]).Ok? then SetupCell(row[c]).value else Empty
  }

  function SetupAt(setup: seq<seq<string>>, i: nat, c: nat): Cell
  {
    if i < |setup| then RowCell(setup[i], c) else Empty
  }

  /** The colour that starts on a back rank: white on row 0, black on row 7. */
  function RankColor(r: int): Color { if r < 4 then White else Black }

  /** The back rank from column 0 to column 7. */
  function BackRankKind(c: int): Kind
    requires 0 <= c < 8
  {
    [Rook, Knight, Bishop, Queen, King, Bishop, Knight, Rook][c]
  }

  /** The standard starting position, white on rows 0 and 1. */
  function InitialCell(r: int, c: int): Cell
    requires OnBoard(r, c)
  {
    if r == 0 || r == 7 then Occ(BackRankKind(c), RankColor(r))
    else if r == 1 then Occ(Pawn, White)
    else if r == 6 then Occ(Pawn, Black)
    else Empty
  }

  /** The rook side given to the piece of back-rank column `c`. */
  function BackRankSide(c: int): Option<RookSide>
  {
    if c == 0 then Some(QueenSide) else if c == 7 then Some(KingSide) else None
  }

  /** How many of the first `n` back-rank columns hold `k`. */
  function BackRankCount(k: Kind, n: nat): nat
    requires n <= 8
  {
    if n == 0 then 0 else BackRankCount(k, n - 1) + (if BackRankKind(n - 1) == k then 1 else 0)
  }

  lemma BackRankCounts(k: Kind)
    ensures BackRankCount(k, 8) + (if k == Pawn then 8 else 0) == InitialCount(k)
  {
  }

  /** How many pieces of a kind each colour starts with. */
  function InitialCount(k: Kind): nat
  {
    match k
    case Pawn => 8
    case Knight => 2
    case Bishop => 2
    case Rook => 2
    case Queen => 1
    case King => 1
  }
}
