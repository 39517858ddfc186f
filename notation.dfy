/**
 * Colours, piece names, rook sides and square names: the enums and the
 * algebraic-notation conversions every other part of the engine uses.
 */
module Notation {
  import opened Python

  // ------------------------------------------------------------- colours

  /** `PieceColor`: WHITE = 0, BLACK = 1. */
  datatype Color = White | Black
  {
    /** `PieceColor.opposite()`. */
    function Opposite(): (r: Color)
      ensures r != this
    {
      if this == White then Black else White
    }
  }

  /** `PieceColor.get_opposite(color)`, the static twin of `opposite()`. */
  function GetOpposite(c: Color): (r: Color)
    ensures r == c.Opposite()
  {
    if c == White then Black else White
  }

  lemma OppositeInvolution(c: Color)
    ensures c.Opposite().Opposite() == c
    ensures c.Opposite() != c
  {
  }

  function ColorValue(c: Color): nat { if c == White then 0 else 1 }

  function ColorName(c: Color): string { if c == White then "WHITE" else "BLACK" }

  /** `PieceColor.choices()`: every member, in declaration order, as (value, name). */
  function Choices(): (r: seq<(nat, string)>)
    ensures |r| == 2
    ensures forall c: Color :: r[ColorValue(c)] == (ColorValue(c), ColorName(c))
  {
    var colors := [White, Black];
    seq(2, i requires 0 <= i < 2 => (ColorValue(colors[i]), ColorName(colors[i])))
  }

  /** `PLAYER_VALUES`: +1 for white, -1 for black. */
  function PlayerValue(c: Color): (v: int)
    ensures v == 1 || v == -1
    ensures v == 1 <==> c == White
  {
    if c == White then 1 else -1
  }

  lemma PlayerValueOpposite(c: Color)
    ensures PlayerValue(c.Opposite()) == -PlayerValue(c)
  {
  }

  // -------------------------------------------------------------- pieces

  /** `PieceName`, in declaration order. */
  datatype Kind = Pawn | Bishop | Knight | Rook | Queen | King

  const AllKinds: seq<Kind> := [Pawn, Bishop, Knight, Rook, Queen, King]

  /** The first component of a `PieceName` value. */
  function KindName(k: Kind): string
  {
    match k
    case Pawn => "Pawn"
    case Bishop => "Bishop"
    case Knight => "Knight"
    case Rook => "Rook"
    case Queen => "Queen"
    case King => "King"
  }

  /** The second component of a `PieceName` value: the SAN letter. */
  function KindLetter(k: Kind): char
  {
    match k
    case Pawn => 'P'
    case Bishop => 'B'
    case Knight => 'N'
    case Rook => 'R'
    case Queen => 'Q'
    case King => 'K'
  }

  lemma AllKindsComplete()
    ensures forall k: Kind :: k in AllKinds
  {
    forall k: Kind ensures k in AllKinds {
      var i := match k
        case Pawn => 0 case Bishop => 1 case Knight => 2
        case Rook => 3 case Queen => 4 case King => 5;
      assert AllKinds[i] == k;
    }
  }

  /** `piece_string in piece.value`: equal to the name or to the one-letter string. */
  predicate Names(k: Kind, s: string)
  {
    s == KindName(k) || s == [KindLetter(k)]
  }

  function FindKindFrom(s: string, i: nat): (r: Result<Kind>)
    requires i <= |AllKinds|
    ensures r.Err? <==> forall j :: i <= j < |AllKinds| ==> !Names(AllKinds[j], s)
    ensures r.Err? ==> r.error == ValueError
    ensures r.Ok? ==> exists j :: i <= j < |AllKinds| && AllKinds[j] == r.value
                        && Names(r.value, s)
                        && forall l :: i <= l < j ==> !Names(AllKinds[l], s)
    decreases |AllKinds| - i
  {
    if i == |AllKinds| then Err(ValueError)
    else if Names(AllKinds[i], s) then Ok(AllKinds[i])
    else FindKindFrom(s, i + 1)
  }

  /**
   * `PieceName.get_piece_from_string`: the first member whose (name, letter)
   * pair holds the string; a ValueError when none does.
   */
  function GetPieceFromString(s: string): (r: Result<Kind>)
    ensures r.Err? <==> forall k: Kind :: !Names(k, s)
    ensures r.Err? ==> r.error == ValueError
    ensures r.Ok? ==> Names(r.value, s)
  {
    AllKindsComplete();
    FindKindFrom(s, 0)
  }

  /** The letters are pairwise distinct, so a letter names exactly one piece. */
  lemma {:induction false} LetterSelectsKind(k: Kind)
    ensures GetPieceFromString([KindLetter(k)]) == Ok(k)
  {
    var r := GetPieceFromString([KindLetter(k)]);
    assert Names(k, [KindLetter(k)]);
    assert r.Ok?;
    assert Names(r.value, [KindLetter(k)]);
  }

  lemma NameSelectsKind(k: Kind)
    ensures GetPieceFromString(KindName(k)) == Ok(k)
  {
    var r := GetPieceFromString(KindName(k));
    assert Names(k, KindName(k));
    assert Names(r.value, KindName(k));
  }

  lemma LettersDistinct(k1: Kind, k2: Kind)
    ensures KindLetter(k1) == KindLetter(k2) <==> k1 == k2
  {
  }

  /**
   * The `for piece in PieceName: if piece.value[1] == letter` search: the
   * member whose letter it is, or none.
   */
  function KindOfLetter(c: char): (r: Option<Kind>)
    ensures r.None? ==> forall k: Kind :: KindLetter(k) != c
    ensures r.Some? ==> KindLetter(r.value) == c
  {
    match c
    case 'P' => Some(Pawn)
    case 'B' => Some(Bishop)
    case 'N' => Some(Knight)
    case 'R' => Some(Rook)
    case 'Q' => Some(Queen)
    case 'K' => Some(King)
    case _ => None
  }

  /** `RookSide`: QUEEN = 0, KING = 1. */
  datatype RookSide = QueenSide | KingSide

  /** The `castleling_rights` dictionary: one flag per (colour, rook side). */
  datatype CastlingRights = CastlingRights(whiteKing: bool, whiteQueen: bool, blackKing: bool, blackQueen: bool)
  {
    function Get(c: Color, side: RookSide): bool
    {
      match (c, side)
      case (White, KingSide) => whiteKing
      case (White, QueenSide) => whiteQueen
      case (Black, KingSide) => blackKing
      case (Black, QueenSide) => blackQueen
    }

    function Set(c: Color, side: RookSide, v: bool): (r: CastlingRights)
      ensures r.Get(c, side) == v
      ensures forall c', s' :: (c', s') != (c, side) ==> r.Get(c', s') == Get(c', s')
    {
      match (c, side)
      case (White, KingSide) => this.(whiteKing := v)
      case (White, QueenSide) => this.(whiteQueen := v)
      case (Black, KingSide) => this.(blackKing := v)
      case (Black, QueenSide) => this.(blackQueen := v)
    }

    /** Every right held here is also held in `other`: going from `other` to this only gives rights up. */
    predicate Within(other: CastlingRights)
    {
      forall c: Color, s: RookSide :: Get(c, s) ==> other.Get(c, s)
    }
  }

  const AllRights := CastlingRights(true, true, true, true)

  /** What a board cell shows to value-level code: empty, or a piece. */
  datatype Cell = Empty | Occ(kind: Kind, color: Color)

  // ------------------------------------------------------- square names

  const Files: string := "abcdefgh"
  const Ranks: string := "12345678"

  predicate OnBoard(row: int, column: int) { 0 <= row < 8 && 0 <= column < 8 }

  /**
   * `convert_to_algebraic_notation(row, column)`: file letter then rank digit;
   * both lookups are dictionary lookups, so anything outside 0..7 is a KeyError.
   */
  function ToAlgebraic(row: int, column: int): (r: Result<string>)
    ensures r.Ok? <==> OnBoard(row, column)
    ensures r.Err? ==> r.error == KeyError
    ensures r.Ok? ==> r.value == [Files[column], Ranks[row]]
  {
    if !(0 <= row < 8) || !(0 <= column < 8) then Err(KeyError)
    else Ok([Files[column], Ranks[row]])
  }

  /** The square name of an on-board square. */
  function SquareName(row: int, column: int): (s: string)
    requires OnBoard(row, column)
    ensures ToAlgebraic(row, column) == Ok(s)
  {
    [Files[column], Ranks[row]]
  }

  /**
   * `convert_from_algebraic_notation(position)`:
   * (int(position[1]) - 1, ord(position[0]) - 97). Too short a string is an
   * IndexError and a non-digit second character a ValueError.
   */
  function FromAlgebraic(s: string): (r: Result<(int, int)>)
    ensures r.Err? <==> |s| < 2 || !IsDigit(s[1])
    ensures r.Err? ==> r.error == (if |s| < 2 then IndexError else ValueError)
    ensures r.Ok? ==> r.value.1 == s[0] as int - 'a' as int
    ensures r.Ok? ==> -1 <= r.value.0 <= 8 && r.value.0 == s[1] as int - '1' as int
  {
    if |s| < 2 then Err(IndexError)
    else if !IsDigit(s[1]) then Err(ValueError)
    else Ok((DigitValue(s[1]) - 1, s[0] as int - 97))
  }

  predicate IsSquareName(s: string)
  {
    |s| == 2 && 'a' <= s[0] <= 'h' && '1' <= s[1] <= '8'
  }

  lemma FromToAlgebraic(row: int, column: int)
    requires OnBoard(row, column)
    ensures FromAlgebraic(SquareName(row, column)) == Ok((row, column))
  {
  }

  lemma ToFromAlgebraic(s: string)
    requires IsSquareName(s)
    ensures FromAlgebraic(s).Ok?
    ensures ToAlgebraic(FromAlgebraic(s).value.0, FromAlgebraic(s).value.1) == Ok(s)
  {
    assert forall i :: 0 <= i < 8 ==> Files[i] as int == 97 + i && Ranks[i] as int == 49 + i;
    var column := s[0] as int - 97;
    var row := s[1] as int - 49;
    assert Files[column] == s[0] && Ranks[row] == s[1];
    assert s == [s[0], s[1]];
  }

  lemma ToAlgebraicShape(row: int, column: int)
    requires OnBoard(row, column)
    ensures |SquareName(row, column)| == 2 && IsSquareName(SquareName(row, column))
  {
  }

  lemma ToAlgebraicInjective(r1: int, c1: int, r2: int, c2: int)
    requires OnBoard(r1, c1) && OnBoard(r2, c2)
    requires ToAlgebraic(r1, c1) == ToAlgebraic(r2, c2)
    ensures r1 == r2 && c1 == c2
  {
    FromToAlgebraic(r1, c1);
    FromToAlgebraic(r2, c2);
  }

  /** `INITIAL_FEN`. */
  const InitialFen: string := "rnbqkbnr/pppppppp/8/8/8/8/PPPPPPPP/RNBQKBNR w KQkq - 0 1"
}
