/**
 * The king's rules: the pieces that attack it and whether it is in check,
 * the castling conditions, and its moves to the eight neighbouring squares
 * and to the two castling squares. The squares the other side attacks come
 * from the board's cached `get_attacked_squares` and are given as lists.
 */
module KingRules {
  import opened Python
  import opened Notation
  import opened ChessBoard
  import opened Scans
  import opened LegalMoves
  import opened PawnRules

  // ------------------------------------------------ pieces attacking me

  /**
   * `ATTACKING_DIAGONALS` (bishop and queen) when `diagonal` holds,
   * `ATTACKING_ROWS_AND_COLUMNS` (rook and queen) otherwise.
   */
  predicate Slides(kind: Kind, diagonal: bool)
  {
    kind == Queen || kind == (if diagonal then Bishop else Rook)
  }

  /** The last entry of a scan when it is an enemy piece of one of the kinds. */
  function LineAttacker(s: seq<Item>, color: Color, diagonal: bool): (r: seq<Piece>)
    ensures |r| <= 1
    ensures r != [] ==> EndsAt(s, r[0]) && r[0].color != color && Slides(r[0].kind, diagonal)
  {
    if |s| > 0 && s[|s| - 1].Found? && s[|s| - 1].piece.color != color && Slides(s[|s| - 1].piece.kind, diagonal)
    then [s[|s| - 1].piece] else []
  }

  /** `get_pieces_attacking_from_row_or_column`: for d0 then d1, the column scan, then the row scan. */
  function LineAttackersFrom(scans: seq<seq<Item>>, color: Color, k: nat): seq<Piece>
    requires |scans| == 8 && k <= 2
    decreases 2 - k
  {
    if k == 2 then []
    else LineAttacker(scans[k], color, false) + LineAttacker(scans[2 + k], color, false) +
         LineAttackersFrom(scans, color, k + 1)
  }

  /** `get_pieces_attacking_from_diagonals`: d0 to d3. */
  function DiagonalAttackersFrom(scans: seq<seq<Item>>, color: Color, k: nat): seq<Piece>
    requires |scans| == 8 && k <= 4
    decreases 4 - k
  {
    if k == 4 then [] else LineAttacker(scans[4 + k], color, true) + DiagonalAttackersFrom(scans, color, k + 1)
  }

  /** The `positions_to_check` of `get_pawns_attacking_me`. */
  const PawnOffsets: seq<(int, int)> := [(1, 1), (1, -1), (-1, 1), (-1, -1)]

  /**
   * An enemy pawn on the square (row + dr, column + dc) whose attacked
   * squares hold (row, column). The pawn's attacked squares are taken from
   * the square it stands on, which is its own position on a board where
   * `Placed` holds.
   */
  function PawnAt(g: Grid, row: int, column: int, color: Color, offset: (int, int)): (r: seq<Piece>)
    requires IsGrid(g)
    ensures |r| <= 1
    ensures r != [] ==> r[0].kind == Pawn && r[0].color != color &&
                        (row, column) in AttackedSquares(row + offset.0, column + offset.1, r[0].color)
  {
    var (r, c) := (row + offset.0, column + offset.1);
    if OnBoard(r, c) && g[r][c] != null && g[r][c].kind == Pawn && g[r][c].color != color &&
       (row, column) in AttackedSquares(r, c, g[r][c].color)
    then [g[r][c]] else []
  }

  function PawnsFrom(g: Grid, row: int, column: int, color: Color, k: nat): seq<Piece>
    requires IsGrid(g) && k <= 4
    decreases 4 - k
  {
    if k == 4 then [] else PawnAt(g, row, column, color, PawnOffsets[k]) + PawnsFrom(g, row, column, color, k + 1)
  }

  /**
   * `get_pieces_attacking_me` on the eight scans from the square: the rooks
   * and queens at the end of the column and row scans, the bishops and
   * queens at the end of the diagonal scans, the knights a knight's move
   * away and the pawns that attack the square, in that order.
   */
  function AttackersIn(scans: seq<seq<Item>>, g: Grid, row: int, column: int, color: Color): seq<Piece>
    requires |scans| == 8 && IsGrid(g)
  {
    LineAttackersFrom(scans, color, 0) + DiagonalAttackersFrom(scans, color, 0) +
    KnightsFrom(g, row, column, color, 0) + PawnsFrom(g, row, column, color, 0)
  }

  /** `get_pieces_attacking_me`. */
  function AttackersOf(g: Grid, row: int, column: int, color: Color): seq<Piece>
    requires IsGrid(g) && OnBoard(row, column)
  {
    AttackersIn(DefaultScans(g, row, column), g, row, column, color)
  }

  lemma {:induction false} LineAttackersAreEnemies(scans: seq<seq<Item>>, color: Color, k: nat)
    requires |scans| == 8 && k <= 2
    ensures forall p :: p in LineAttackersFrom(scans, color, k) ==> p.color != color && Slides(p.kind, false)
    decreases 2 - k
  {
    if k < 2 {
      LineAttackersAreEnemies(scans, color, k + 1);
    }
  }

  lemma {:induction false} DiagonalAttackersAreEnemies(scans: seq<seq<Item>>, color: Color, k: nat)
    requires |scans| == 8 && k <= 4
    ensures forall p :: p in DiagonalAttackersFrom(scans, color, k) ==> p.color != color && Slides(p.kind, true)
    decreases 4 - k
  {
    if k < 4 {
      DiagonalAttackersAreEnemies(scans, color, k + 1);
    }
  }

  lemma {:induction false} KnightsAreEnemies(g: Grid, row: int, column: int, color: Color, k: nat)
    requires IsGrid(g) && k <= 8
    ensures forall p :: p in KnightsFrom(g, row, column, color, k) ==> p.color != color && p.kind == Knight
    decreases 8 - k
  {
    if k < 8 {
      KnightsAreEnemies(g, row, column, color, k + 1);
    }
  }

  lemma {:induction false} PawnsAreEnemies(g: Grid, row: int, column: int, color: Color, k: nat)
    requires IsGrid(g) && k <= 4
    ensures forall p :: p in PawnsFrom(g, row, column, color, k) ==> p.color != color && p.kind == Pawn
    decreases 4 - k
  {
    if k < 4 {
      PawnsAreEnemies(g, row, column, color, k + 1);
    }
  }

  lemma SlidersAreEnemies(scans: seq<seq<Item>>, color: Color)
    requires |scans| == 8
    ensures forall p :: p in LineAttackersFrom(scans, color, 0) + DiagonalAttackersFrom(scans, color, 0) ==>
                          p.color != color && p.kind != King
  {
    LineAttackersAreEnemies(scans, color, 0);
    DiagonalAttackersAreEnemies(scans, color, 0);
  }

  lemma LeapersAreEnemies(g: Grid, row: int, column: int, color: Color)
    requires IsGrid(g)
    ensures forall p :: p in KnightsFrom(g, row, column, color, 0) + PawnsFrom(g, row, column, color, 0) ==>
                          p.color != color && p.kind != King
  {
    KnightsAreEnemies(g, row, column, color, 0);
    PawnsAreEnemies(g, row, column, color, 0);
  }

  /** Every attacker is an enemy piece, and never a king. */
  lemma AttackersAreEnemies(scans: seq<seq<Item>>, g: Grid, row: int, column: int, color: Color)
    requires |scans| == 8 && IsGrid(g)
    ensures forall p :: p in AttackersIn(scans, g, row, column, color) ==> p.color != color && p.kind != King
  {
    SlidersAreEnemies(scans, color);
    LeapersAreEnemies(g, row, column, color);
    forall p | p in AttackersIn(scans, g, row, column, color) ensures p.color != color && p.kind != King {
      var a, b := LineAttackersFrom(scans, color, 0), DiagonalAttackersFrom(scans, color, 0);
      var c, d := KnightsFrom(g, row, column, color, 0), PawnsFrom(g, row, column, color, 0);
      assert p in a + b + c + d;
      assert p in a + b || p in c + d;
    }
  }

  lemma {:induction false} LineInFrom(scans: seq<seq<Item>>, color: Color, k: nat, d: nat, p: Piece)
    requires |scans| == 8 && k <= d < 2
    requires p in LineAttacker(scans[d], color, false) + LineAttacker(scans[2 + d], color, false)
    ensures p in LineAttackersFrom(scans, color, k)
    decreases d - k
  {
    if k < d {
      LineInFrom(scans, color, k + 1, d, p);
    }
  }

  lemma {:induction false} DiagonalInFrom(scans: seq<seq<Item>>, color: Color, k: nat, d: nat, p: Piece)
    requires |scans| == 8 && k <= d < 4
    requires p in LineAttacker(scans[4 + d], color, true)
    ensures p in DiagonalAttackersFrom(scans, color, k)
    decreases d - k
  {
    if k < d {
      DiagonalInFrom(scans, color, k + 1, d, p);
    }
  }

  lemma SliderInSliders(scans: seq<seq<Item>>, color: Color, d: nat, p: Piece)
    requires |scans| == 8 && d < 8
    requires EndsAt(scans[d], p) && p.color != color && Slides(p.kind, d >= 4)
    ensures p in LineAttackersFrom(scans, color, 0) + DiagonalAttackersFrom(scans, color, 0)
  {
    if d < 4 {
      assert LineAttacker(scans[d], color, false) == [p];
      LineInFrom(scans, color, 0, d % 2, p);
    } else {
      assert LineAttacker(scans[d], color, true) == [p];
      DiagonalInFrom(scans, color, 0, d - 4, p);
    }
  }

  /** A queen, rook or bishop that a scan of its kind ends at gives check. */
  lemma SliderAtEndChecks(scans: seq<seq<Item>>, g: Grid, row: int, column: int, color: Color, d: nat, p: Piece)
    requires |scans| == 8 && IsGrid(g) && d < 8
    requires EndsAt(scans[d], p) && p.color != color
    requires Slides(p.kind, d >= 4)
    ensures p in AttackersIn(scans, g, row, column, color)
  {
    SliderInSliders(scans, color, d, p);
    SlidersAttack(scans, g, row, column, color, p);
  }

  lemma SlidersAttack(scans: seq<seq<Item>>, g: Grid, row: int, column: int, color: Color, p: Piece)
    requires |scans| == 8 && IsGrid(g)
    requires p in LineAttackersFrom(scans, color, 0) + DiagonalAttackersFrom(scans, color, 0)
    ensures p in AttackersIn(scans, g, row, column, color)
  {
  }

  /** An enemy knight a knight's move away gives check. */
  lemma KnightChecks(scans: seq<seq<Item>>, g: Grid, row: int, column: int, color: Color, j: nat)
    requires |scans| == 8 && IsGrid(g) && j < 8
    requires KnightAt(g, row, column, color, KnightOffsets[j]) != []
    ensures KnightAt(g, row, column, color, KnightOffsets[j])[0] in AttackersIn(scans, g, row, column, color)
  {
    KnightInFrom(g, row, column, color, 0, j);
  }

  lemma {:induction false} KnightInFrom(g: Grid, row: int, column: int, color: Color, k: nat, j: nat)
    requires IsGrid(g) && k <= j < 8
    requires KnightAt(g, row, column, color, KnightOffsets[j]) != []
    ensures KnightAt(g, row, column, color, KnightOffsets[j])[0] in KnightsFrom(g, row, column, color, k)
    decreases j - k
  {
    var p := KnightAt(g, row, column, color, KnightOffsets[j])[0];
    var rest := KnightsFrom(g, row, column, color, k + 1);
    if k < j {
      KnightInFrom(g, row, column, color, k + 1, j);
      assert p in rest;
    } else {
      assert p in KnightAt(g, row, column, color, KnightOffsets[k]);
    }
    assert p in KnightAt(g, row, column, color, KnightOffsets[k]) + rest;
  }

  /** `get_pieces_attacking_from_row_or_column`. */
  method LineAttackersLoop(scans: seq<seq<Item>>, color: Color) returns (attackers: seq<Piece>)
    requires |scans| == 8
    ensures attackers == LineAttackersFrom(scans, color, 0)
  {
    attackers := [];
    for k := 0 to 2
      invariant attackers + LineAttackersFrom(scans, color, k) == LineAttackersFrom(scans, color, 0)
    {
      var hit := LineAttacker(scans[k], color, false) + LineAttacker(scans[2 + k], color, false);
      AppendAssoc(attackers, hit, LineAttackersFrom(scans, color, k + 1));
      attackers := attackers + hit;
    }
    assert attackers + [] == attackers;
  }

  /** `get_pieces_attacking_from_diagonals`. */
  method DiagonalAttackersLoop(scans: seq<seq<Item>>, color: Color) returns (attackers: seq<Piece>)
    requires |scans| == 8
    ensures attackers == DiagonalAttackersFrom(scans, color, 0)
  {
    attackers := [];
    for k := 0 to 4
      invariant attackers + DiagonalAttackersFrom(scans, color, k) == DiagonalAttackersFrom(scans, color, 0)
    {
      var hit := LineAttacker(scans[4 + k], color, true);
      AppendAssoc(attackers, hit, DiagonalAttackersFrom(scans, color, k + 1));
      attackers := attackers + hit;
    }
    assert attackers + [] == attackers;
  }

  /** One turn of the loop of `get_pawns_attacking_me`. */
  method PawnProbe(board: Board, piece: Piece, k: nat) returns (hit: seq<Piece>)
    requires board.Valid() && Placed(board.grid) && k < 4
    ensures hit == PawnAt(board.grid, piece.row, piece.column, piece.color, PawnOffsets[k])
  {
    var (r, c) := (piece.row + PawnOffsets[k].0, piece.column + PawnOffsets[k].1);
    hit := [];
    if Board.IsPositionOnBoard(Some((r, c)), None, None) {
      var p := board.grid[r][c];                       // `get_square_or_piece(*pos)`
      if p != null && p.kind == Pawn && p.color != piece.color {
        assert p.row == r && p.column == c;
        var squares := AttackedSquares(p.row, p.column, p.color);
        if (piece.row, piece.column) in squares {
          hit := [p];
        }
      }
    }
  }

  /** `get_pawns_attacking_me`. */
  method GetPawnsAttackingMe(board: Board, piece: Piece) returns (attackers: seq<Piece>)
    requires board.Valid() && Placed(board.grid)
    ensures attackers == PawnsFrom(board.grid, piece.row, piece.column, piece.color, 0)
  {
    attackers := [];
    for k := 0 to 4
      invariant attackers + PawnsFrom(board.grid, piece.row, piece.column, piece.color, k) ==
                PawnsFrom(board.grid, piece.row, piece.column, piece.color, 0)
    {
      var hit := PawnProbe(board, piece, k);
      AppendAssoc(attackers, hit, PawnsFrom(board.grid, piece.row, piece.column, piece.color, k + 1));
      attackers := attackers + hit;
    }
    assert attackers + [] == attackers;
  }

  /** The four sources of attack `get_pieces_attacking_me` adds up, in its order. */
  method CollectAttackers(board: Board, piece: Piece) returns (attackers: seq<Piece>)
    requires board.Valid() && Placed(board.grid) && OnBoard(piece.row, piece.column)
    ensures attackers == AttackersOf(board.grid, piece.row, piece.column, piece.color)
  {
    ghost var g, row, column, color := board.grid, piece.row, piece.column, piece.color;
    var scans := ScanAll(board, piece.row, piece.column);
    assert scans == DefaultScans(g, row, column);
    var lines := LineAttackersLoop(scans, piece.color);
    var diagonals := DiagonalAttackersLoop(scans, piece.color);
    var knights := GetKnightsAttackingMe(board, piece);
    var pawns := GetPawnsAttackingMe(board, piece);
    attackers := lines + diagonals + knights + pawns;
    assert attackers == AttackersIn(scans, g, row, column, color);
  }

  /** `get_pieces_attacking_me`: the attackers, also recorded on the piece. */
  method GetPiecesAttackingMe(board: Board, piece: Piece) returns (attackers: seq<Piece>)
    requires board.Valid() && Placed(board.grid) && OnBoard(piece.row, piece.column)
    modifies piece`attackingMe
    ensures attackers == old(AttackersOf(board.grid, piece.row, piece.column, piece.color))
    ensures piece.attackingMe == attackers
  {
    attackers := CollectAttackers(board, piece);
    piece.attackingMe := attackers;
  }

  /** `check_if_in_check`: records and returns whether anything attacks the king. */
  method CheckIfInCheck(king: Piece) returns (inCheck: bool, attackers: seq<Piece>)
    requires king.board.Valid() && Placed(king.board.grid) && OnBoard(king.row, king.column)
    modifies king`attackingMe, king`isInCheck
    ensures attackers == old(AttackersOf(king.board.grid, king.row, king.column, king.color))
    ensures inCheck <==> attackers != []
    ensures king.isInCheck == inCheck && king.attackingMe == attackers
  {
    attackers := GetPiecesAttackingMe(king.board, king);
    inCheck := attackers != [];
    king.isInCheck := inCheck;
  }

  // ---------------------------------------------------------- castling

  /** The squares between the king and the rook, nearest first. */
  function CastlingSquares(row: int, column: int, side: RookSide): (r: seq<(int, int)>)
    ensures |r| == if side == KingSide then 2 else 3
    ensures forall j :: 1 <= j <= |r| ==> r[j - 1] == (row, Away(column, Multiplier(side), j))
  {
    if side == KingSide then [(row, column + 1), (row, column + 2)]
    else [(row, column - 1), (row, column - 2), (row, column - 3)]
  }

  /** The `multiplier` of `_castleling_helper`: towards the king's rook or the queen's. */
  function Multiplier(side: RookSide): int
  {
    if side == KingSide then 1 else -1
  }

  /**
   * The `is_position_empty` loop of `_castleling_helper`: false at the first
   * occupied square; an index off the board is an error.
   */
  function SquaresEmpty(g: Grid, squares: seq<(int, int)>): (r: Result<bool>)
    requires IsGrid(g)
    ensures r == Ok(true) <==> forall k :: 0 <= k < |squares| ==> Lookup(g, squares[k].0, squares[k].1) == Ok(null)
    ensures r.Err? ==> r.error == IndexError
  {
    if squares == [] then Ok(true)
    else
      match Lookup(g, squares[0].0, squares[0].1)
      case Err(e) => Err(e)
      case Ok(p) =>
        if p != null then Ok(false)
        else
          assert forall k :: 1 <= k < |squares| ==> squares[k] == squares[1..][k - 1];
          SquaresEmpty(g, squares[1..])
  }

  /** The attacked-square loop of `_castleling_helper`, from the i-th square back to the first. */
  function NoneAttacked(row: int, column: int, side: RookSide, i: nat, attacked: seq<(int, int)>): (r: bool)
    ensures r <==> forall j :: 1 <= j <= i ==> (row, Away(column, Multiplier(side), j)) !in attacked
  {
    if i == 0 then true
    else (row, Away(column, Multiplier(side), i)) !in attacked && NoneAttacked(row, column, side, i - 1, attacked)
  }

  /**
   * `_check_if_kingside_castleling_is_possible` and its queenside twin: the
   * right is still held, the squares up to the rook are empty, and none of
   * them is attacked.
   */
  function CastlingPossible(g: Grid, rights: CastlingRights, color: Color, row: int, column: int,
                            side: RookSide, attacked: seq<(int, int)>): Result<bool>
    requires IsGrid(g)
  {
    if !rights.Get(color, side) then Ok(false) else PathClear(g, row, column, side, attacked)
  }

  /** `_castleling_helper`: the squares up to the rook are empty, then none of them is attacked. */
  function PathClear(g: Grid, row: int, column: int, side: RookSide, attacked: seq<(int, int)>): Result<bool>
    requires IsGrid(g)
  {
    var squares := CastlingSquares(row, column, side);
    match SquaresEmpty(g, squares)
    case Err(e) => Err(e)
    case Ok(empty) => if !empty then Ok(false) else Ok(NoneAttacked(row, column, side, |squares|, attacked))
  }

  /** Castling is allowed exactly when the right is held and every square to the rook is empty and safe. */
  lemma CastlingPossibleMeans(g: Grid, rights: CastlingRights, color: Color, row: int, column: int,
                              side: RookSide, attacked: seq<(int, int)>)
    requires IsGrid(g)
    ensures CastlingPossible(g, rights, color, row, column, side, attacked) == Ok(true) <==>
              rights.Get(color, side) &&
              forall sq :: sq in CastlingSquares(row, column, side) ==>
                             Lookup(g, sq.0, sq.1) == Ok(null) && sq !in attacked
  {
    var squares := CastlingSquares(row, column, side);
    if CastlingPossible(g, rights, color, row, column, side, attacked) == Ok(true) {
      assert SquaresEmpty(g, squares) == Ok(true);
      assert NoneAttacked(row, column, side, |squares|, attacked);
      forall sq | sq in squares ensures Lookup(g, sq.0, sq.1) == Ok(null) && sq !in attacked {
        var k :| 0 <= k < |squares| && squares[k] == sq;
        assert squares[(k + 1) - 1] == (row, Away(column, Multiplier(side), k + 1));
      }
    }
    if rights.Get(color, side) &&
       forall sq :: sq in squares ==> Lookup(g, sq.0, sq.1) == Ok(null) && sq !in attacked {
      forall k | 0 <= k < |squares| ensures Lookup(g, squares[k].0, squares[k].1) == Ok(null) {
        assert squares[k] in squares;
      }
      forall j | 1 <= j <= |squares| ensures (row, Away(column, Multiplier(side), j)) !in attacked {
        assert squares[j - 1] in squares;
      }
    }
  }

  /**
   * Castling as written does not look at the king's own square: a king in
   * check may still castle.
   */
  lemma CastlingIgnoresCheck(g: Grid, rights: CastlingRights, color: Color, row: int, column: int,
                             side: RookSide, attacked: seq<(int, int)>)
    requires IsGrid(g)
    ensures CastlingPossible(g, rights, color, row, column, side, attacked + [(row, column)]) ==
            CastlingPossible(g, rights, color, row, column, side, attacked)
  {
    forall j | 1 <= j <= 3 ensures ((row, Away(column, Multiplier(side), j)) in attacked + [(row, column)]) ==
                                    ((row, Away(column, Multiplier(side), j)) in attacked)
    {
    }
  }

  /**
   * Castling as written on the queen's side also needs the square next to
   * the rook (the b-file for a king on the e-file) to be unattacked, although
   * the king never crosses it.
   */
  lemma QueensideNeedsRookNeighbourSafe(g: Grid, rights: CastlingRights, color: Color, row: int, column: int,
                                        attacked: seq<(int, int)>)
    requires IsGrid(g)
    requires (row, column - 3) in attacked
    requires CastlingPossible(g, rights, color, row, column, QueenSide, attacked).Ok?
    ensures CastlingPossible(g, rights, color, row, column, QueenSide, attacked) == Ok(false)
  {
    assert Away(column, Multiplier(QueenSide), 3) == column - 3;
  }

  /**
   * Castling under Article 3.8.2 of the FIDE Laws of Chess: the right is
   * held, the squares up to the rook are empty, and the king's square, the
   * square it crosses and the square it lands on are not attacked.
   */
  function FideCastlingPossible(g: Grid, rights: CastlingRights, color: Color, row: int, column: int,
                                side: RookSide, attacked: seq<(int, int)>): Result<bool>
    requires IsGrid(g)
  {
    if !rights.Get(color, side) then Ok(false)
    else
      match SquaresEmpty(g, CastlingSquares(row, column, side))
      case Err(e) => Err(e)
      case Ok(empty) =>
        Ok(empty && (row, column) !in attacked && NoneAttacked(row, column, side, 2, attacked))
  }

  /**
   * The FIDE conditions: a king in check never castles, the king's path is
   * safe, and the queen's side b-file square only has to be empty.
   */
  lemma FideCastlingSafe(g: Grid, rights: CastlingRights, color: Color, row: int, column: int,
                         side: RookSide, attacked: seq<(int, int)>)
    requires IsGrid(g)
    ensures FideCastlingPossible(g, rights, color, row, column, side, attacked) == Ok(true) ==>
              (row, column) !in attacked &&
              (row, Away(column, Multiplier(side), 1)) !in attacked &&
              (row, Away(column, Multiplier(side), 2)) !in attacked
    ensures (row, column) in attacked ==> FideCastlingPossible(g, rights, color, row, column, side, attacked) != Ok(true)
    ensures side == QueenSide ==>
              FideCastlingPossible(g, rights, color, row, column, side, attacked + [(row, column - 3)]) ==
              FideCastlingPossible(g, rights, color, row, column, side, attacked)
  {
    var more := attacked + [(row, column - 3)];
    if side == QueenSide {
      assert (row, column) in more <==> (row, column) in attacked;
      forall j | 1 <= j <= 2 ensures ((row, Away(column, -1, j)) in more) == ((row, Away(column, -1, j)) in attacked) {
      }
    }
  }

  /** `_castleling_helper`. */
  method CastlingHelper(board: Board, row: int, column: int, side: RookSide, attacked: seq<(int, int)>)
    returns (r: Result<bool>)
    requires board.Valid()
    ensures r == PathClear(board.grid, row, column, side, attacked)
  {
    var squares := CastlingSquares(row, column, side);
    var multiplier := Multiplier(side);
    for k := 0 to |squares|
      invariant SquaresEmpty(board.grid, squares) == SquaresEmpty(board.grid, squares[k..])
    {
      assert squares[k..][0] == squares[k] && squares[k..][1..] == squares[k + 1..];
      var empty := board.IsPositionEmpty(squares[k].0, squares[k].1);
      if empty.Err? {
        return Err(empty.error);
      }
      if !empty.value {
        return Ok(false);
      }
    }
    assert squares[|squares|..] == [];
    var i := |squares|;
    while i > 0
      invariant 0 <= i <= |squares|
      invariant NoneAttacked(row, column, side, |squares|, attacked) == NoneAttacked(row, column, side, i, attacked)
    {
      var position := (row, column + i * multiplier);
      assert position == (row, Away(column, multiplier, i)) by {
        if multiplier == 1 { assert i * multiplier == i; } else { assert i * multiplier == -i; }
      }
      if position in attacked {
        return Ok(false);
      }
      i := i - 1;
    }
    r := Ok(true);
  }

  /** `_check_if_kingside_castleling_is_possible` / `_check_if_queenside_castleling_is_possible`. */
  method CheckCastling(king: Piece, side: RookSide, attacked: seq<(int, int)>) returns (r: Result<bool>)
    requires king.board.Valid()
    ensures r == CastlingPossible(king.board.grid, king.board.rights, king.color, king.row, king.column, side, attacked)
  {
    var board := king.board;
    if !board.rights.Get(king.color, side) {
      return Ok(false);
    }
    r := CastlingHelper(board, king.row, king.column, side, attacked);
  }

  // ------------------------------------------------------- the moves

  /** The `positions_to_check` of `_calculate_legal_moves`, clockwise from the upper right. */
  const KingOffsets: seq<(int, int)> := [(1, 1), (1, 0), (1, -1), (0, -1), (-1, -1), (-1, 0), (-1, 1), (0, 1)]

  /**
   * What one neighbouring square adds to the king's moves: nothing off the
   * board; the square when attacks are not checked; otherwise nothing when
   * it is attacked, and, when captures are checked, nothing when an own
   * piece stands on it. An enemy piece there becomes its position, which is
   * the square itself on a board where `Placed` holds.
   */
  function NeighbourAt(g: Grid, row: int, column: int, color: Color, offset: (int, int), attacked: seq<(int, int)>,
                       checkCapturable: bool, checkAttacked: bool): seq<Item>
    requires IsGrid(g)
  {
    var (r, c) := (row + offset.0, column + offset.1);
    if !OnBoard(r, c) then []
    else if !checkAttacked then [Square(r, c)]
    else if (r, c) in attacked then []
    else if checkCapturable && g[r][c] != null && g[r][c].color == color then []
    else [Square(r, c)]
  }

  function NeighboursFrom(g: Grid, row: int, column: int, color: Color, attacked: seq<(int, int)>,
                          checkCapturable: bool, checkAttacked: bool, k: nat): seq<Item>
    requires IsGrid(g) && k <= 8
    decreases 8 - k
  {
    if k == 8 then []
    else NeighbourAt(g, row, column, color, KingOffsets[k], attacked, checkCapturable, checkAttacked) +
         NeighboursFrom(g, row, column, color, attacked, checkCapturable, checkAttacked, k + 1)
  }

  /**
   * `King._calculate_legal_moves`: the neighbouring squares on the board
   * (all of them when attacks are not checked; otherwise those not in
   * `attackedTrespass`, an own piece dropped and an enemy piece turned into
   * its position when captures are checked), then the king's side castling
   * square, then the queen's side one. The square-name conversion passes
   * keywords `convert_to_algebraic_notation` does not take: a TypeError as
   * soon as there is a move to convert.
   */
  function KingMoves(g: Grid, rights: CastlingRights, row: int, column: int, color: Color,
                     attackedTrespass: seq<(int, int)>, attacked: seq<(int, int)>,
                     checkCapturable: bool, checkAttacked: bool, algebraic: bool): Result<seq<Item>>
    requires IsGrid(g)
  {
    var neighbours := NeighboursFrom(g, row, column, color, attackedTrespass, checkCapturable, checkAttacked, 0);
    var kingside :- CastlingPossible(g, rights, color, row, column, KingSide, attacked);
    var withKingside := neighbours + (if kingside then [Square(row, column + 2)] else []);
    var queenside :- CastlingPossible(g, rights, color, row, column, QueenSide, attacked);
    var moves := withKingside + (if queenside then [Square(row, column - 2)] else []);
    if algebraic && moves != [] then Err(TypeError) else Ok(moves)
  }

  /** The square one step from the king in a direction of `KingOffsets`. */
  predicate Adjacent(row: int, column: int, r: int, c: int)
  {
    exists k :: 0 <= k < 8 && (r, c) == (row + KingOffsets[k].0, column + KingOffsets[k].1)
  }

  lemma {:induction false} NeighboursShape(g: Grid, row: int, column: int, color: Color, attacked: seq<(int, int)>,
                                          checkCapturable: bool, checkAttacked: bool, k: nat)
    requires IsGrid(g) && k <= 8
    ensures forall m :: m in NeighboursFrom(g, row, column, color, attacked, checkCapturable, checkAttacked, k) ==>
              m.Square? && OnBoard(m.row, m.column) && Adjacent(row, column, m.row, m.column) &&
              (checkAttacked ==> (m.row, m.column) !in attacked) &&
              (checkAttacked && checkCapturable ==> g[m.row][m.column] == null || g[m.row][m.column].color != color)
    decreases 8 - k
  {
    if k < 8 {
      NeighboursShape(g, row, column, color, attacked, checkCapturable, checkAttacked, k + 1);
      var (r, c) := (row + KingOffsets[k].0, column + KingOffsets[k].1);
      forall m | m in NeighbourAt(g, row, column, color, KingOffsets[k], attacked, checkCapturable, checkAttacked)
        ensures m.Square? && OnBoard(m.row, m.column) && Adjacent(row, column, m.row, m.column) &&
                (checkAttacked ==> (m.row, m.column) !in attacked) &&
                (checkAttacked && checkCapturable ==> g[m.row][m.column] == null || g[m.row][m.column].color != color)
      {
        assert (r, c) == (row + KingOffsets[k].0, column + KingOffsets[k].1);
        assert m == Square(r, c);
      }
    }
  }

  /**
   * Every move of the king is a neighbouring square on the board, not
   * attacked and not held by an own piece when those are checked, or a
   * castling square two columns away whose conditions hold.
   */
  lemma KingMovesShape(g: Grid, rights: CastlingRights, row: int, column: int, color: Color,
                       attackedTrespass: seq<(int, int)>, attacked: seq<(int, int)>,
                       checkCapturable: bool, checkAttacked: bool)
    requires IsGrid(g)
    requires KingMoves(g, rights, row, column, color, attackedTrespass, attacked, checkCapturable, checkAttacked, false).Ok?
    ensures forall m :: m in KingMoves(g, rights, row, column, color, attackedTrespass, attacked,
                                       checkCapturable, checkAttacked, false).value ==>
              m.Square? &&
              ((OnBoard(m.row, m.column) && Adjacent(row, column, m.row, m.column) &&
                (checkAttacked ==> (m.row, m.column) !in attackedTrespass) &&
                (checkAttacked && checkCapturable ==> g[m.row][m.column] == null || g[m.row][m.column].color != color)) ||
               (m == Square(row, column + 2) &&
                CastlingPossible(g, rights, color, row, column, KingSide, attacked) == Ok(true)) ||
               (m == Square(row, column - 2) &&
                CastlingPossible(g, rights, color, row, column, QueenSide, attacked) == Ok(true)))
  {
    NeighboursShape(g, row, column, color, attackedTrespass, checkCapturable, checkAttacked, 0);
  }

  lemma {:induction false} NeighbourIn(g: Grid, row: int, column: int, color: Color, attacked: seq<(int, int)>,
                                      checkCapturable: bool, checkAttacked: bool, k: nat, j: nat)
    requires IsGrid(g) && k <= j < 8
    requires NeighbourAt(g, row, column, color, KingOffsets[j], attacked, checkCapturable, checkAttacked) != []
    ensures NeighbourAt(g, row, column, color, KingOffsets[j], attacked, checkCapturable, checkAttacked)[0] in
              NeighboursFrom(g, row, column, color, attacked, checkCapturable, checkAttacked, k)
    decreases j - k
  {
    if k < j {
      NeighbourIn(g, row, column, color, attacked, checkCapturable, checkAttacked, k + 1, j);
    }
  }

  /**
   * Every neighbouring square on the board is a move of the king, unless
   * attacks are checked and it is attacked, or captures are checked too and
   * an own piece stands on it. With neither checked (`get_attacked_squares`)
   * that is every neighbouring square on the board.
   */
  lemma FreeNeighbourIsMove(g: Grid, rights: CastlingRights, row: int, column: int, color: Color,
                            attackedTrespass: seq<(int, int)>, attacked: seq<(int, int)>,
                            checkCapturable: bool, checkAttacked: bool, j: nat)
    requires IsGrid(g) && j < 8
    requires KingMoves(g, rights, row, column, color, attackedTrespass, attacked, checkCapturable, checkAttacked, false).Ok?
    requires var (r, c) := (row + KingOffsets[j].0, column + KingOffsets[j].1);
             OnBoard(r, c) &&
             (checkAttacked ==> (r, c) !in attackedTrespass) &&
             (checkAttacked && checkCapturable ==> g[r][c] == null || g[r][c].color != color)
    ensures Square(row + KingOffsets[j].0, column + KingOffsets[j].1) in
              KingMoves(g, rights, row, column, color, attackedTrespass, attacked, checkCapturable, checkAttacked, false).value
  {
    var square := Square(row + KingOffsets[j].0, column + KingOffsets[j].1);
    assert NeighbourAt(g, row, column, color, KingOffsets[j], attackedTrespass, checkCapturable, checkAttacked) == [square];
    NeighbourIn(g, row, column, color, attackedTrespass, checkCapturable, checkAttacked, 0, j);
    NeighboursAreMoves(g, rights, row, column, color, attackedTrespass, attacked, checkCapturable, checkAttacked, square);
  }

  lemma NeighboursAreMoves(g: Grid, rights: CastlingRights, row: int, column: int, color: Color,
                           attackedTrespass: seq<(int, int)>, attacked: seq<(int, int)>,
                           checkCapturable: bool, checkAttacked: bool, m: Item)
    requires IsGrid(g)
    requires KingMoves(g, rights, row, column, color, attackedTrespass, attacked, checkCapturable, checkAttacked, false).Ok?
    requires m in NeighboursFrom(g, row, column, color, attackedTrespass, checkCapturable, checkAttacked, 0)
    ensures m in KingMoves(g, rights, row, column, color, attackedTrespass, attacked, checkCapturable, checkAttacked, false).value
  {
  }

  // ------------------------------------------- the names of the moves

  /** The coordinates of a list of squares. */
  function Coordinates(moves: seq<Item>): (r: seq<(int, int)>)
    requires forall k :: 0 <= k < |moves| ==> moves[k].Square?
    ensures |r| == |moves| && forall k :: 0 <= k < |moves| ==> r[k] == (moves[k].row, moves[k].column)
  {
    seq(|moves|, k requires 0 <= k < |moves| => (moves[k].row, moves[k].column))
  }

  /**
   * `King._calculate_legal_moves` with each move named by
   * `convert_to_algebraic_notation(row, column)` alone, as the other pieces
   * name theirs; a KeyError for a castling square off the board.
   */
  function KingMovesFixed(g: Grid, rights: CastlingRights, row: int, column: int, color: Color,
                          attackedTrespass: seq<(int, int)>, attacked: seq<(int, int)>,
                          checkCapturable: bool, checkAttacked: bool, algebraic: bool): (r: Result<seq<Item>>)
    requires IsGrid(g)
    ensures var moves := KingMoves(g, rights, row, column, color, attackedTrespass, attacked,
                                   checkCapturable, checkAttacked, false);
            (!algebraic || moves.Err? ==> r == moves) &&
            (r.Ok? ==> moves.Ok? && |r.value| == |moves.value|)
  {
    match KingMoves(g, rights, row, column, color, attackedTrespass, attacked, checkCapturable, checkAttacked, false)
    case Err(e) => Err(e)
    case Ok(moves) =>
      if !algebraic then Ok(moves)
      else
        KingMovesShape(g, rights, row, column, color, attackedTrespass, attacked, checkCapturable, checkAttacked);
        assert forall k :: 0 <= k < |moves| ==> moves[k] in moves;
        SquareNames(Coordinates(moves))
  }

  lemma KingMovesOnBoard(g: Grid, rights: CastlingRights, row: int, column: int, color: Color,
                         attackedTrespass: seq<(int, int)>, attacked: seq<(int, int)>,
                         checkCapturable: bool, checkAttacked: bool)
    requires IsGrid(g) && OnBoard(row, column) && 2 <= column <= 5
    requires KingMoves(g, rights, row, column, color, attackedTrespass, attacked, checkCapturable, checkAttacked, false).Ok?
    ensures var moves := KingMoves(g, rights, row, column, color, attackedTrespass, attacked,
                                   checkCapturable, checkAttacked, false).value;
            forall k :: 0 <= k < |moves| ==> moves[k].Square? && OnBoard(moves[k].row, moves[k].column)
  {
    var moves := KingMoves(g, rights, row, column, color, attackedTrespass, attacked,
                           checkCapturable, checkAttacked, false).value;
    KingMovesShape(g, rights, row, column, color, attackedTrespass, attacked, checkCapturable, checkAttacked);
    forall k | 0 <= k < |moves|
      ensures moves[k].Square? && OnBoard(moves[k].row, moves[k].column)
    {
      assert moves[k] in moves;
    }
  }

  /**
   * A king standing on the board between the c- and f-files has every move
   * named, and each name reads back as the square of that move.
   */
  lemma KingMovesNamed(g: Grid, rights: CastlingRights, row: int, column: int, color: Color,
                       attackedTrespass: seq<(int, int)>, attacked: seq<(int, int)>,
                       checkCapturable: bool, checkAttacked: bool)
    requires IsGrid(g) && OnBoard(row, column) && 2 <= column <= 5
    requires KingMoves(g, rights, row, column, color, attackedTrespass, attacked, checkCapturable, checkAttacked, false).Ok?
    ensures var moves := KingMoves(g, rights, row, column, color, attackedTrespass, attacked,
                                   checkCapturable, checkAttacked, false).value;
            var r := KingMovesFixed(g, rights, row, column, color, attackedTrespass, attacked,
                                    checkCapturable, checkAttacked, true);
            r.Ok? && |r.value| == |moves| &&
            forall k :: 0 <= k < |moves| ==>
              moves[k].Square? && r.value[k].Name? &&
              FromAlgebraic(r.value[k].s) == Ok((moves[k].row, moves[k].column))
  {
    var moves := KingMoves(g, rights, row, column, color, attackedTrespass, attacked,
                           checkCapturable, checkAttacked, false).value;
    KingMovesOnBoard(g, rights, row, column, color, attackedTrespass, attacked, checkCapturable, checkAttacked);
    forall k | 0 <= k < |moves|
      ensures FromAlgebraic(SquareName(moves[k].row, moves[k].column)) == Ok((moves[k].row, moves[k].column))
    {
      FromToAlgebraic(moves[k].row, moves[k].column);
    }
  }

  /** `_check_capturable_moves` on a one-entry list is the trimming of that entry. */
  lemma SweepSingle(m: Item, color: Color)
    ensures SweepAsWritten([m], color, 0) == Trim(m, color)
  {
    if m.Found? && m.piece.color == color {
      assert [m][..0] + [m][1..] == [];
    }
  }

  /** One turn of the neighbour loop of `King._calculate_legal_moves`. */
  method KingNeighbour(king: Piece, k: nat, attacked: seq<(int, int)>, checkCapturable: bool, checkAttacked: bool)
    returns (hit: seq<Item>)
    requires king.board.Valid() && Placed(king.board.grid) && k < 8
    ensures hit == NeighbourAt(king.board.grid, king.row, king.column, king.color, KingOffsets[k], attacked,
                               checkCapturable, checkAttacked)
  {
    var board := king.board;
    var position := (king.row + KingOffsets[k].0, king.column + KingOffsets[k].1);
    hit := [];
    if Board.IsPositionOnBoard(Some(position), None, None) {
      if !checkAttacked {
        hit := [Square(position.0, position.1)];
      } else if position !in attacked {
        if checkCapturable {
          var found := board.GetSquareOrPiece(position.0, position.1);
          var square := if found.value.At? then Found(found.value.piece) else Square(position.0, position.1);
          SweepSingle(square, king.color);
          hit := CheckCapturableMoves([square], king.color, false);
          if square.Found? {
            assert board.grid[position.0][position.1] == square.piece;
            assert square.piece.row == position.0 && square.piece.column == position.1;
          }
        } else {
          hit := [Square(position.0, position.1)];
        }
      }
    }
  }

  /** `King._calculate_legal_moves`. */
  method CalculateKingMoves(king: Piece, attackedTrespass: seq<(int, int)>, attacked: seq<(int, int)>,
                            checkCapturable: bool, checkAttacked: bool, algebraic: bool) returns (r: Result<seq<Item>>)
    requires king.board.Valid() && Placed(king.board.grid)
    ensures r == KingMoves(king.board.grid, king.board.rights, king.row, king.column, king.color,
                           attackedTrespass, attacked, checkCapturable, checkAttacked, algebraic)
  {
    var board := king.board;
    var row, column := king.row, king.column;
    var moves: seq<Item> := [];
    for k := 0 to 8
      invariant moves + NeighboursFrom(board.grid, row, column, king.color, attackedTrespass, checkCapturable, checkAttacked, k) ==
                NeighboursFrom(board.grid, row, column, king.color, attackedTrespass, checkCapturable, checkAttacked, 0)
    {
      var hit := KingNeighbour(king, k, attackedTrespass, checkCapturable, checkAttacked);
      AppendAssoc(moves, hit, NeighboursFrom(board.grid, row, column, king.color, attackedTrespass,
                                             checkCapturable, checkAttacked, k + 1));
      moves := moves + hit;
    }
    assert moves + [] == moves;
    ghost var neighbours := NeighboursFrom(board.grid, row, column, king.color, attackedTrespass, checkCapturable, checkAttacked, 0);
    assert moves == neighbours;
    var kingside := CheckCastling(king, KingSide, attacked);
    if kingside.Err? {
      return Err(kingside.error);
    }
    if kingside.value {
      moves := moves + [Square(row, column + 2)];
    } else {
      assert moves + [] == moves;
    }
    var queenside := CheckCastling(king, QueenSide, attacked);
    if queenside.Err? {
      return Err(queenside.error);
    }
    if queenside.value {
      moves := moves + [Square(row, column - 2)];
    } else {
      assert moves + [] == moves;
    }
    if algebraic && moves != [] {
      return Err(TypeError);
    }
    r := Ok(moves);
  }

  /**
   * `King.get_attacked_squares`: the moves with neither attacks nor
   * captures checked, which are every neighbouring square on the board,
   * followed by the castling squares whose conditions hold.
   */
  method GetKingAttackedSquares(king: Piece, attacked: seq<(int, int)>, algebraic: bool) returns (r: Result<seq<Item>>)
    requires king.board.Valid() && Placed(king.board.grid)
    ensures r == KingMoves(king.board.grid, king.board.rights, king.row, king.column, king.color,
                           [], attacked, false, false, algebraic)
  {
    r := CalculateKingMoves(king, [], attacked, false, false, algebraic);
  }
}
