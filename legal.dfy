/**
 * `Piece.calculate_legal_moves`: the moves a piece's own rule gives, cut down
 * when its king is in check (to the checking piece and the squares of the
 * checking line) or when the piece is the only thing between its king and a
 * line attacker (to the squares of that line).
 *
 * The scans used here are the default ones (`end_at_piece_found` set, no king
 * passed, pieces reported as objects).
 */
module LegalMoves {
  import opened Python
  import opened Notation
  import opened ChessBoard
  import opened Scans

  // ------------------------------------------------------- default scans

  /**
   * The eight default scans from a square, in the order the engine reads
   * them: column d0 and d1, row d0 and d1, diagonals d0 to d3.
   */
  function DefaultScans(g: Grid, row: int, column: int): (s: seq<seq<Item>>)
    requires IsGrid(g) && OnBoard(row, column)
    ensures |s| == 8
  {
    LinesOnBoard(row, column, 0);
    LinesOnBoard(column, row, 1);
    DiagonalSquares(row, column, 0);
    DiagonalSquares(row, column, 1);
    DiagonalSquares(row, column, 2);
    DiagonalSquares(row, column, 3);
    [Walk(g, Line(Down(row), column, 0), true, false, None),
     Walk(g, Line(Up(row), column, 0), true, false, None),
     Walk(g, Line(Down(column), row, 1), true, false, None),
     Walk(g, Line(Up(column), row, 1), true, false, None),
     Walk(g, Diagonal(row, column, 0), true, false, None),
     Walk(g, Diagonal(row, column, 1), true, false, None),
     Walk(g, Diagonal(row, column, 2), true, false, None),
     Walk(g, Diagonal(row, column, 3), true, false, None)]
  }

  /** `scan_column()`, `scan_row()` and `scan_diagonals()` with their defaults. */
  method ScanAll(board: Board, row: int, column: int) returns (s: seq<seq<Item>>)
    requires board.Valid() && OnBoard(row, column)
    ensures s == DefaultScans(board.grid, row, column)
  {
    var c0, c1 := ScanColumn(board, row, column, false, None, false, true);
    var r0, r1 := ScanRow(board, row, column, false, None, false, true);
    var d0, d1, d2, d3 := ScanDiagonals(board, row, column, true, false, None, false);
    s := [c0, c1, r0, r1, d0, d1, d2, d3];
  }

  // ---------------------------------------------- the line to the own king

  /** A scan whose last entry is a king of `color`. */
  predicate EndsAtKing(s: seq<Item>, color: Color)
  {
    |s| > 0 && s[|s| - 1].Found? && s[|s| - 1].piece.kind == King && s[|s| - 1].piece.color == color
  }

  /**
   * What `_check_if_friendly_king_is_next_to_piece` gives back when it finds
   * the king: the two halves of the line through the piece (`moves_dict`),
   * and 0 for a column, 1 for a row, 2 for a diagonal.
   */
  datatype KingLine = KingLine(d0: seq<Item>, d1: seq<Item>, direction: nat)

  /**
   * `_check_if_friendly_king_is_next_to_piece` on the default scans: the
   * first line (column, then row, then the diagonals d0 to d3) one of whose
   * halves ends at the own king. A diagonal comes back with its opposite
   * half: d0 with d3, d1 with d2.
   */
  function FriendlyKingLine(scans: seq<seq<Item>>, color: Color): (r: Option<KingLine>)
    requires |scans| == 8
    ensures r.None? <==> forall d :: 0 <= d < 8 ==> !EndsAtKing(scans[d], color)
    ensures r.Some? ==> EndsAtKing(r.value.d0, color) || EndsAtKing(r.value.d1, color)
    ensures r.Some? ==> r.value in {KingLine(scans[0], scans[1], 0), KingLine(scans[2], scans[3], 1),
                                    KingLine(scans[4], scans[7], 2), KingLine(scans[5], scans[6], 2)}
    ensures r.Some? && r.value.direction > 0 ==> !EndsAtKing(scans[0], color) && !EndsAtKing(scans[1], color)
    ensures r.Some? && r.value.direction > 1 ==> !EndsAtKing(scans[2], color) && !EndsAtKing(scans[3], color)
  {
    if EndsAtKing(scans[0], color) || EndsAtKing(scans[1], color) then Some(KingLine(scans[0], scans[1], 0))
    else if EndsAtKing(scans[2], color) || EndsAtKing(scans[3], color) then Some(KingLine(scans[2], scans[3], 1))
    else if EndsAtKing(scans[4], color) then Some(KingLine(scans[4], scans[7], 2))
    else if EndsAtKing(scans[5], color) || EndsAtKing(scans[6], color) then Some(KingLine(scans[5], scans[6], 2))
    else if EndsAtKing(scans[7], color) then Some(KingLine(scans[4], scans[7], 2))
    else None
  }

  /** `_check_if_friendly_king_is_next_to_piece`. */
  method CheckIfFriendlyKingIsNextToPiece(board: Board, piece: Piece) returns (r: Option<KingLine>)
    requires board.Valid() && OnBoard(piece.row, piece.column)
    ensures r == FriendlyKingLine(DefaultScans(board.grid, piece.row, piece.column), piece.color)
  {
    var s := ScanAll(board, piece.row, piece.column);
    if EndsAtKing(s[0], piece.color) || EndsAtKing(s[1], piece.color) {
      return Some(KingLine(s[0], s[1], 0));
    }
    if EndsAtKing(s[2], piece.color) || EndsAtKing(s[3], piece.color) {
      return Some(KingLine(s[2], s[3], 1));
    }
    if EndsAtKing(s[4], piece.color) || EndsAtKing(s[7], piece.color) {
      if EndsAtKing(s[4], piece.color) || !(EndsAtKing(s[5], piece.color) || EndsAtKing(s[6], piece.color)) {
        return Some(KingLine(s[4], s[7], 2));
      }
    }
    if EndsAtKing(s[5], piece.color) || EndsAtKing(s[6], piece.color) {
      return Some(KingLine(s[5], s[6], 2));
    }
    return None;
  }

  // ------------------------------------------------ algebraic conversion

  /**
   * `convert_to_algebraic_notation(*pos)` on one scan entry; a piece is kept
   * as it is. A square name cannot be unpacked into a row and a column: two
   * characters fail the row lookup (KeyError), any other length the call.
   */
  function AlgebraicItem(m: Item): (r: Result<Item>)
    ensures m.Found? ==> r == Ok(m)
    ensures m.Square? ==> (r.Ok? <==> OnBoard(m.row, m.column))
    ensures m.Square? && r.Ok? ==> r.value == Name(SquareName(m.row, m.column))
    ensures r.Ok? ==> !r.value.Square?
    ensures m.Name? ==> r.Err?
  {
    match m
    case Found(_) => Ok(m)
    case Square(row, column) =>
      (match ToAlgebraic(row, column)
       case Ok(s) => Ok(Name(s))
       case Err(e) => Err(e))
    case Name(s) => Err(if |s| == 2 then KeyError else TypeError)
  }

  /** Every entry converted, in order; the first failure is the result. */
  function AlgebraicItems(items: seq<Item>): Result<seq<Item>>
  {
    if items == [] then Ok([])
    else
      match AlgebraicItem(items[0])
      case Err(e) => Err(e)
      case Ok(m) => Prepend([m], AlgebraicItems(items[1..]))
  }

  /** The conversion works entry by entry and keeps the pieces. */
  lemma {:induction false} AlgebraicItemsPointwise(items: seq<Item>)
    ensures AlgebraicItems(items).Ok? <==> forall k :: 0 <= k < |items| ==> AlgebraicItem(items[k]).Ok?
    ensures AlgebraicItems(items).Ok? ==>
              |AlgebraicItems(items).value| == |items| &&
              forall k :: 0 <= k < |items| ==> AlgebraicItems(items).value[k] == AlgebraicItem(items[k]).value
  {
    if items != [] {
      AlgebraicItemsPointwise(items[1..]);
      if AlgebraicItem(items[0]).Ok? && AlgebraicItems(items[1..]).Ok? {
        var rest := AlgebraicItems(items[1..]).value;
        assert AlgebraicItems(items).value == [AlgebraicItem(items[0]).value] + rest;
        forall k | 1 <= k < |items| ensures AlgebraicItem(items[k]).Ok? {
          assert items[k] == items[1..][k - 1];
        }
      } else if AlgebraicItem(items[0]).Ok? {
        var j :| 0 <= j < |items[1..]| && AlgebraicItem(items[1..][j]).Err?;
        assert items[1..][j] == items[j + 1];
      }
    }
  }

  /** Converted scans hold no coordinates and no pieces beyond the original ones. */
  lemma AlgebraicKeepsPieces(items: seq<Item>)
    requires AlgebraicItems(items).Ok?
    ensures PiecesIn(AlgebraicItems(items).value) <= PiecesIn(items)
    ensures forall k :: 0 <= k < |AlgebraicItems(items).value| ==> !AlgebraicItems(items).value[k].Square?
  {
    AlgebraicItemsPointwise(items);
    var out := AlgebraicItems(items).value;
    forall p | p in PiecesIn(out) ensures p in PiecesIn(items) {
      var k :| 0 <= k < |out| && out[k].Found? && out[k].piece == p;
      assert items[k] == out[k];
    }
  }

  lemma AlgebraicItemsStep(items: seq<Item>, k: nat)
    requires k < |items|
    ensures AlgebraicItems(items[k..]) ==
              match AlgebraicItem(items[k])
              case Err(e) => Err(e)
              case Ok(m) => Prepend([m], AlgebraicItems(items[k + 1..]))
  {
    assert items[k..][0] == items[k];
    assert items[k..][1..] == items[k + 1..];
  }

  /** The `alg_list` loops: every coordinate pair turned into its square name. */
  method ConvertToAlgebraic(items: seq<Item>) returns (r: Result<seq<Item>>)
    ensures r == AlgebraicItems(items)
  {
    var out: seq<Item> := [];
    assert items[0..] == items;
    PrependEmpty(AlgebraicItems(items));
    for k := 0 to |items|
      invariant AlgebraicItems(items) == Prepend(out, AlgebraicItems(items[k..]))
    {
      AlgebraicItemsStep(items, k);
      var m := AlgebraicItem(items[k]);
      if m.Err? {
        return Err(m.error);
      }
      PrependPrepend(out, [m.value], AlgebraicItems(items[k + 1..]));
      out := out + [m.value];
    }
    assert items[|items|..] == [];
    assert out + [] == out;
    r := Ok(out);
  }

  // ------------------------------------------------- the checking line

  /** A scan that ends at the given piece. */
  predicate EndsAt(s: seq<Item>, target: Piece)
  {
    |s| > 0 && s[|s| - 1] == Found(target)
  }

  /** The first scan that ends at the piece. */
  function FirstEndingAt(scans: seq<seq<Item>>, target: Piece): (r: Option<nat>)
    ensures r.None? <==> forall k :: 0 <= k < |scans| ==> !EndsAt(scans[k], target)
    ensures r.Some? ==> r.value < |scans| && EndsAt(scans[r.value], target) &&
                        forall j :: 0 <= j < r.value ==> !EndsAt(scans[j], target)
  {
    if scans == [] then None
    else if EndsAt(scans[0], target) then Some(0)
    else
      match FirstEndingAt(scans[1..], target)
      case None =>
        assert forall k :: 1 <= k < |scans| ==> scans[k] == scans[1..][k - 1];
        None
      case Some(k) =>
        assert scans[k + 1] == scans[1..][k];
        assert forall j :: 1 <= j < k + 1 ==> scans[j] == scans[1..][j - 1];
        Some(k + 1)
  }

  /**
   * `scan_direction_for_piece_at_end` over the scans of the requested
   * directions, in order: the first one that ends at the piece (converted to
   * square names when asked), or nothing (`False`).
   */
  function AtEnd(scans: seq<seq<Item>>, target: Piece, algebraic: bool): Result<Option<seq<Item>>>
  {
    match FirstEndingAt(scans, target)
    case None => Ok(None)
    case Some(k) =>
      if !algebraic then Ok(Some(scans[k]))
      else match AlgebraicItems(scans[k])
        case Ok(a) => Ok(Some(a))
        case Err(e) => Err(e)
  }

  method ScanDirectionForPieceAtEnd(scans: seq<seq<Item>>, target: Piece, algebraic: bool)
    returns (r: Result<Option<seq<Item>>>)
    ensures r == AtEnd(scans, target, algebraic)
  {
    for k := 0 to |scans|
      invariant forall j :: 0 <= j < k ==> !EndsAt(scans[j], target)
    {
      var direction := scans[k];
      if |direction| > 0 && direction[|direction| - 1] == Found(target) {
        if algebraic {
          var a := ConvertToAlgebraic(direction);
          if a.Err? {
            return Err(a.error);
          }
          return Ok(Some(a.value));
        }
        return Ok(Some(direction));
      }
    }
    return Ok(None);
  }

  /** `directions_to_scan`: the king's scans along which a bishop, rook or queen can check it. */
  function AttackLines(kind: Kind, scans: seq<seq<Item>>): (r: Option<seq<seq<Item>>>)
    requires |scans| == 8
    ensures r.Some? <==> kind in {Bishop, Rook, Queen}
  {
    match kind
    case Bishop => Some(scans[4..])
    case Rook => Some(scans[..4])
    case Queen => Some(scans)
    case _ => None
  }

  // ------------------------------------------------- answering a check

  /**
   * The squares that answer a single check: capturing the checking piece,
   * or (for a coordinate or square-name move) landing on the checking line
   * or on the checker's square.
   */
  predicate Answers(m: Item, attacker: Piece, line: seq<Item>)
    reads attacker
  {
    m == Found(attacker) ||
    (!m.Found? && (m in line || m == Square(attacker.row, attacker.column) ||
                   (ToAlgebraic(attacker.row, attacker.column).Ok? &&
                    m == Name(ToAlgebraic(attacker.row, attacker.column).value))))
  }

  /**
   * One step of the in-check loop of `calculate_legal_moves`. A move on the
   * line that is also the checker's square is appended twice, as in the
   * engine; with no line (`False`) the membership test is a TypeError.
   */
  function KeepInCheck(m: Item, attacker: Piece, line: Option<seq<Item>>): (r: Result<seq<Item>>)
    reads attacker
  {
    if m.Found? then Ok(if m.piece == attacker then [m] else [])
    else if line.None? then Err(TypeError)
    else
      var onLine := if m in line.value then [m] else [];
      if m == Square(attacker.row, attacker.column) then Ok(onLine + [m])
      else
        match ToAlgebraic(attacker.row, attacker.column)
        case Err(e) => Err(e)
        case Ok(name) => Ok(onLine + (if m == Name(name) then [m] else []))
  }

  lemma KeepInCheckAnswers(m: Item, attacker: Piece, line: Option<seq<Item>>)
    requires KeepInCheck(m, attacker, line).Ok?
    ensures forall x :: x in KeepInCheck(m, attacker, line).value <==>
                          (x == m && (line.Some? || m.Found?) &&
                           Answers(m, attacker, if line.Some? then line.value else []))
  {
  }

  function Blocking(moves: seq<Item>, attacker: Piece, line: Option<seq<Item>>): Result<seq<Item>>
    reads attacker
  {
    if moves == [] then Ok([])
    else
      match KeepInCheck(moves[0], attacker, line)
      case Err(e) => Err(e)
      case Ok(kept) => Prepend(kept, Blocking(moves[1..], attacker, line))
  }

  /** With a single checker, exactly the moves that answer the check are kept. */
  lemma {:induction false} BlockingKeepsAnswers(moves: seq<Item>, attacker: Piece, line: Option<seq<Item>>)
    requires Blocking(moves, attacker, line).Ok?
    ensures forall x :: x in Blocking(moves, attacker, line).value <==>
                          x in moves && Answers(x, attacker, if line.Some? then line.value else [])
    ensures forall x :: x in moves && !x.Found? ==> line.Some?
  {
    if moves != [] {
      KeepInCheckAnswers(moves[0], attacker, line);
      BlockingKeepsAnswers(moves[1..], attacker, line);
      var kept := KeepInCheck(moves[0], attacker, line).value;
      assert Blocking(moves, attacker, line).value == kept + Blocking(moves[1..], attacker, line).value;
      forall x | x in moves ensures x == moves[0] || x in moves[1..] {
        var k :| 0 <= k < |moves| && moves[k] == x;
        if k > 0 { assert moves[1..][k - 1] == x; }
      }
    }
  }

  lemma BlockingStep(moves: seq<Item>, attacker: Piece, line: Option<seq<Item>>, k: nat)
    requires k < |moves|
    ensures Blocking(moves[k..], attacker, line) ==
              match KeepInCheck(moves[k], attacker, line)
              case Err(e) => Err(e)
              case Ok(kept) => Prepend(kept, Blocking(moves[k + 1..], attacker, line))
  {
    assert moves[k..][0] == moves[k];
    assert moves[k..][1..] == moves[k + 1..];
  }

  /** The `for move in piece_legal_moves` loop of the in-check branch. */
  method BlockingMoves(moves: seq<Item>, attacker: Piece, line: Option<seq<Item>>) returns (r: Result<seq<Item>>)
    ensures r == Blocking(moves, attacker, line)
  {
    var possible: seq<Item> := [];
    assert moves[0..] == moves;
    PrependEmpty(Blocking(moves, attacker, line));
    for k := 0 to |moves|
      invariant Blocking(moves, attacker, line) == Prepend(possible, Blocking(moves[k..], attacker, line))
    {
      BlockingStep(moves, attacker, line, k);
      var move := moves[k];
      var kept: seq<Item> := [];
      if move.Found? {
        if move.piece == attacker {
          kept := [move];
        }
      } else {
        if line.None? {
          return Err(TypeError);                   // `move in False`
        }
        var onLine: seq<Item> := if move in line.value then [move] else [];
        if move == Square(attacker.row, attacker.column) {
          kept := onLine + [move];               // `move == piece.position`
        } else {
          var name := ToAlgebraic(attacker.row, attacker.column);
          if name.Err? {
            return Err(name.error);
          }
          kept := onLine + (if move == Name(name.value) then [move] else []);
        }
      }
      assert KeepInCheck(move, attacker, line) == Ok(kept);
      PrependPrepend(possible, kept, Blocking(moves[k + 1..], attacker, line));
      possible := possible + kept;
    }
    assert moves[|moves|..] == [];
    assert possible + [] == possible;
    r := Ok(possible);
  }

  // ------------------------------------------------------ a pinned piece

  /** A piece of the other colour, of one of the given kinds. */
  predicate IsAttacker(m: Item, kinds: set<Kind>, color: Color)
  {
    m.Found? && m.piece.kind in kinds && m.piece.color != color
  }

  /** `_check_if_a_piece_can_attack_friendly_king_in_given_moves`. */
  method CanAttackFriendlyKing(moves: seq<Item>, kinds: set<Kind>, color: Color) returns (r: bool)
    ensures r <==> exists k :: 0 <= k < |moves| && IsAttacker(moves[k], kinds, color)
  {
    for k := 0 to |moves|
      invariant forall j :: 0 <= j < k ==> !IsAttacker(moves[j], kinds, color)
    {
      var move := moves[k];
      if move.Found? {
        if move.piece.kind in kinds && move.piece.color != color {
          return true;
        }
      }
    }
    return false;
  }

  /** The kinds that attack along a column or row (0, 1), or along a diagonal. */
  function PinKinds(direction: nat): set<Kind>
  {
    if direction == 0 || direction == 1 then {Rook, Queen} else {Bishop, Queen}
  }

  /** A piece entry becomes its position (`position`, or `algebraic_pos` when asked). */
  function PositionOf(m: Item, algebraic: bool): (r: Result<Item>)
    reads if m.Found? then {m.piece} else {}
    ensures r.Ok? ==> !r.value.Found?
  {
    if !m.Found? then Ok(m)
    else if !algebraic then Ok(Square(m.piece.row, m.piece.column))
    else
      match ToAlgebraic(m.piece.row, m.piece.column)
      case Ok(s) => Ok(Name(s))
      case Err(e) => Err(e)
  }

  lemma PiecesInTail(moves: seq<Item>)
    requires moves != []
    ensures PiecesIn(moves[1..]) <= PiecesIn(moves)
    ensures moves[0].Found? ==> moves[0].piece in PiecesIn(moves)
  {
    forall p | p in PiecesIn(moves[1..]) ensures p in PiecesIn(moves) {
      var k :| 0 <= k < |moves[1..]| && moves[1..][k].Found? && moves[1..][k].piece == p;
      assert moves[k + 1] == moves[1..][k];
    }
  }

  /** The `for index, move in enumerate(moves)` rewrite of the pinned branch. */
  function Positions(moves: seq<Item>, algebraic: bool): Result<seq<Item>>
    reads PiecesIn(moves)
  {
    if moves == [] then Ok([])
    else
      PiecesInTail(moves);
      match PositionOf(moves[0], algebraic)
      case Err(e) => Err(e)
      case Ok(m) => Prepend([m], Positions(moves[1..], algebraic))
  }

  /** After the rewrite no piece object is left. */
  lemma {:induction false} PositionsLeaveNoPiece(moves: seq<Item>, algebraic: bool)
    requires Positions(moves, algebraic).Ok?
    ensures |Positions(moves, algebraic).value| == |moves|
    ensures forall k :: 0 <= k < |moves| ==> !Positions(moves, algebraic).value[k].Found?
    ensures forall k :: 0 <= k < |moves| && !moves[k].Found? ==> Positions(moves, algebraic).value[k] == moves[k]
  {
    if moves != [] {
      PiecesInTail(moves);
      PositionsLeaveNoPiece(moves[1..], algebraic);
      var out := Positions(moves, algebraic).value;
      assert out == [PositionOf(moves[0], algebraic).value] + Positions(moves[1..], algebraic).value;
      forall k | 1 <= k < |moves| ensures !out[k].Found? && (!moves[k].Found? ==> out[k] == moves[k]) {
        assert moves[k] == moves[1..][k - 1];
      }
    }
  }

  lemma PositionsStep(moves: seq<Item>, algebraic: bool, k: nat)
    requires k < |moves|
    ensures PiecesIn(moves[k..]) <= PiecesIn(moves) && PiecesIn(moves[k + 1..]) <= PiecesIn(moves)
    ensures Positions(moves[k..], algebraic) ==
              match PositionOf(moves[k], algebraic)
              case Err(e) => Err(e)
              case Ok(m) => Prepend([m], Positions(moves[k + 1..], algebraic))
  {
    assert moves[k..][0] == moves[k];
    assert moves[k..][1..] == moves[k + 1..];
    forall p | p in PiecesIn(moves[k..]) ensures p in PiecesIn(moves) {
      var j :| 0 <= j < |moves[k..]| && moves[k..][j].Found? && moves[k..][j].piece == p;
      assert moves[k + j] == moves[k..][j];
    }
    forall p | p in PiecesIn(moves[k + 1..]) ensures p in PiecesIn(moves) {
      var j :| 0 <= j < |moves[k + 1..]| && moves[k + 1..][j].Found? && moves[k + 1..][j].piece == p;
      assert moves[k + 1 + j] == moves[k + 1..][j];
    }
  }

  method ConvertPiecesToPositions(moves: seq<Item>, algebraic: bool) returns (r: Result<seq<Item>>)
    ensures r == Positions(moves, algebraic)
  {
    var out: seq<Item> := [];
    assert moves[0..] == moves;
    PrependEmpty(Positions(moves, algebraic));
    for k := 0 to |moves|
      invariant Positions(moves, algebraic) == Prepend(out, Positions(moves[k..], algebraic))
    {
      PositionsStep(moves, algebraic, k);
      var m := PositionOf(moves[k], algebraic);
      if m.Err? {
        return Err(m.error);
      }
      PrependPrepend(out, [m.value], Positions(moves[k + 1..], algebraic));
      out := out + [m.value];
    }
    assert moves[|moves|..] == [];
    assert out + [] == out;
    r := Ok(out);
  }

  /**
   * `list(set(a) & set(b))`: the moves of `a` that are also in `b`, each
   * once. Python leaves the order to the set; here it is the order of first
   * appearance in `a`.
   */
  function Common(a: seq<Item>, b: seq<Item>): seq<Item>
  {
    if a == [] then []
    else
      var rest := Common(a[..|a| - 1], b);
      var x := a[|a| - 1];
      if x in b && x !in rest then rest + [x] else rest
  }

  /** `Common` is the intersection, without repetitions. */
  lemma {:induction false} CommonIsIntersection(a: seq<Item>, b: seq<Item>)
    ensures forall x :: x in Common(a, b) <==> x in a && x in b
    ensures forall i, j :: 0 <= i < j < |Common(a, b)| ==> Common(a, b)[i] != Common(a, b)[j]
  {
    if a != [] {
      CommonIsIntersection(a[..|a| - 1], b);
      assert a == a[..|a| - 1] + [a[|a| - 1]];
    }
  }

  // --------------------------------------------- calculate_legal_moves

  /** Some entry of the line is an enemy piece of one of the kinds. */
  predicate HasAttacker(moves: seq<Item>, kinds: set<Kind>, color: Color)
  {
    exists k :: 0 <= k < |moves| && IsAttacker(moves[k], kinds, color)
  }

  /** The pieces a line holds. */
  function LinePieces(line: Option<KingLine>): set<Piece>
  {
    if line.Some? then PiecesIn(line.value.d0 + line.value.d1) else {}
  }

  /** The line, in square names when asked. */
  function LineMoves(line: KingLine, algebraic: bool): (r: Result<seq<Item>>)
    ensures r.Ok? ==> PiecesIn(r.value) <= PiecesIn(line.d0 + line.d1)
  {
    var moves := line.d0 + line.d1;
    if !algebraic then Ok(moves)
    else
      var r := AlgebraicItems(moves);
      if r.Ok? then AlgebraicKeepsPieces(moves); r else r
  }

  /**
   * The pin filter: when the piece stands between its own king and an enemy
   * that moves along that line, only the moves onto the line remain.
   */
  function PinnedMoves(pieceMoves: seq<Item>, color: Color, line: Option<KingLine>, algebraic: bool): Result<seq<Item>>
    reads LinePieces(line)
  {
    if line.None? then Ok(pieceMoves)
    else
      match LineMoves(line.value, algebraic)
      case Err(e) => Err(e)
      case Ok(moves) =>
        if !HasAttacker(moves, PinKinds(line.value.direction), color) then Ok(pieceMoves)
        else
          match Positions(moves, algebraic)
          case Err(e) => Err(e)
          case Ok(positions) => Ok(Common(pieceMoves, positions))
  }

  /** The single-check filter: the line from the king to the checker, then `Blocking`. */
  function InCheckMoves(pieceMoves: seq<Item>, attacker: Piece, kingScans: seq<seq<Item>>, algebraic: bool): Result<seq<Item>>
    requires |kingScans| == 8
    reads attacker
  {
    match AttackLines(attacker.kind, kingScans)
    case None => Blocking(pieceMoves, attacker, Some([]))
    case Some(lines) =>
      match AtEnd(lines, attacker, algebraic)
      case Err(e) => Err(e)
      case Ok(line) => Blocking(pieceMoves, attacker, line)
  }

  /**
   * `calculate_legal_moves` after the piece's own generator produced
   * `pieceMoves`. `line` is what `_check_if_friendly_king_is_next_to_piece`
   * found, `kings` the `get_piece(KING, color)` lookup, `attackers` the
   * king's `pieces_attacking_me` after `check_if_in_check`, and `kingScans`
   * the king's default scans.
   */
  function LegalSpec(kind: Kind, color: Color, pieceMoves: seq<Item>, line: Option<KingLine>,
                     kings: Result<seq<Piece>>, attackers: seq<Piece>, kingScans: seq<seq<Item>>,
                     algebraic: bool): (r: Result<seq<Item>>)
    requires |kingScans| == 8
    reads (set p | p in attackers), LinePieces(line)
    ensures kind == King ==> r == Ok(pieceMoves)
    ensures kind != King && kings.Err? ==> r == Err(kings.error)
    ensures kind != King && kings == Ok([]) ==> r == Ok(pieceMoves)
    ensures kind != King && kings.Ok? && kings.value != [] && |attackers| > 1 ==> r == Ok([])
  {
    if kind == King then Ok(pieceMoves)
    else
      match kings
      case Err(e) => Err(e)
      case Ok(ks) =>
        if ks == [] then Ok(pieceMoves)
        else if |attackers| > 1 then Ok([])
        else if |attackers| == 1 then InCheckMoves(pieceMoves, attackers[0], kingScans, algebraic)
        else PinnedMoves(pieceMoves, color, line, algebraic)
  }

  /** `Common` only keeps moves of its first argument. */
  lemma CommonWithin(a: seq<Item>, b: seq<Item>, x: Item)
    ensures x in Common(a, b) <==> x in a && x in b
  {
    CommonIsIntersection(a, b);
  }

  /** The filters never invent a move: whatever is legal was generated by the piece. */
  lemma LegalWithinGenerated(kind: Kind, color: Color, pieceMoves: seq<Item>, line: Option<KingLine>,
                             kings: Result<seq<Piece>>, attackers: seq<Piece>, kingScans: seq<seq<Item>>,
                             algebraic: bool)
    requires |kingScans| == 8
    requires LegalSpec(kind, color, pieceMoves, line, kings, attackers, kingScans, algebraic).Ok?
    ensures forall x :: x in LegalSpec(kind, color, pieceMoves, line, kings, attackers, kingScans, algebraic).value ==>
                          x in pieceMoves
  {
    if kind != King && kings.Ok? && kings.value != [] && |attackers| == 1 {
      InCheckAnswersTheCheck(pieceMoves, attackers[0], kingScans, algebraic);
    } else if kind != King && kings.Ok? && kings.value != [] && |attackers| == 0 && line.Some? {
      PinnedStaysOnLine(pieceMoves, color, line.value, algebraic);
    }
  }

  /** In single check, every move left answers the check: it captures the checker or lands on its line or square. */
  lemma InCheckAnswersTheCheck(pieceMoves: seq<Item>, attacker: Piece, kingScans: seq<seq<Item>>, algebraic: bool)
    requires |kingScans| == 8
    requires InCheckMoves(pieceMoves, attacker, kingScans, algebraic).Ok?
    ensures forall x :: x in InCheckMoves(pieceMoves, attacker, kingScans, algebraic).value ==>
                          x in pieceMoves && (x.Found? ==> x == Found(attacker))
    ensures AttackLines(attacker.kind, kingScans).None? ==>
              forall x :: x in InCheckMoves(pieceMoves, attacker, kingScans, algebraic).value <==>
                            x in pieceMoves && Answers(x, attacker, [])
  {
    var lines := AttackLines(attacker.kind, kingScans);
    var line := if lines.None? then Some([]) else AtEnd(lines.value, attacker, algebraic).value;
    var r := InCheckMoves(pieceMoves, attacker, kingScans, algebraic);
    assert r == Blocking(pieceMoves, attacker, line);
    BlockingKeepsAnswers(pieceMoves, attacker, line);
    forall x | x in r.value ensures x in pieceMoves && (x.Found? ==> x == Found(attacker)) {
      assert Answers(x, attacker, if line.Some? then line.value else []);
    }
  }

  /**
   * A pinned piece keeps exactly the generated moves that stay on the line
   * between its king and the pinning piece; with no enemy on the line nothing
   * changes.
   */
  lemma PinnedStaysOnLine(pieceMoves: seq<Item>, color: Color, line: KingLine, algebraic: bool)
    requires PinnedMoves(pieceMoves, color, Some(line), algebraic).Ok?
    ensures !HasAttacker(LineMoves(line, algebraic).value, PinKinds(line.direction), color) ==>
              PinnedMoves(pieceMoves, color, Some(line), algebraic).value == pieceMoves
    ensures HasAttacker(LineMoves(line, algebraic).value, PinKinds(line.direction), color) ==>
              (forall x :: x in PinnedMoves(pieceMoves, color, Some(line), algebraic).value <==>
                             x in pieceMoves && x in Positions(LineMoves(line, algebraic).value, algebraic).value) &&
              (forall x :: x in PinnedMoves(pieceMoves, color, Some(line), algebraic).value ==> !x.Found?)
  {
    var moves := LineMoves(line, algebraic).value;
    if HasAttacker(moves, PinKinds(line.direction), color) {
      var positions := Positions(moves, algebraic).value;
      var r := PinnedMoves(pieceMoves, color, Some(line), algebraic);
      assert r == Ok(Common(pieceMoves, positions));
      CommonIsIntersection(pieceMoves, positions);
      forall x ensures x in r.value <==> x in pieceMoves && x in positions {
      }
      PositionsLeaveNoPiece(moves, algebraic);
      forall x | x in r.value ensures !x.Found? {
        CommonWithin(pieceMoves, positions, x);
        var k :| 0 <= k < |positions| && positions[k] == x;
      }
    }
  }
}
