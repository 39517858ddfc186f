/**
 * The Zobrist key table (`ZobristHash`) and the position hash built from it
 * (`GameEncoder.compute_game_state_hash`). The table is filled from the
 * generator's output after `random.seed(42)`; that output is modelled as an
 * arbitrary stream of 64-bit values, so every property below holds for any
 * seed, and "the same seed gives the same table" becomes "the same stream
 * gives the same table".
 */
module Zobrist {
  import opened Python
  import opened Notation

  /**
   * A 64-bit value from `getrandbits(64)`, as its bits from the most
   * significant down; `^` on such values is bitwise.
   */
  type Key = s: seq<bool> | |s| == 64 witness Zero()

  function Zero(): seq<bool> { seq(64, i => false) }

  /** Python's `^` on two 64-bit values. */
  function Xor(a: Key, b: Key): Key
  {
    seq(64, i requires 0 <= i < 64 => a[i] != b[i])
  }

  /** The piece letters, in the order the table is filled. */
  const PieceLetters: string := "PNBRQK"

  /** How many values the table draws from the stream. */
  const TableSize: nat := 790

  type PieceKey = (char, Color, int, int)

  /** `keys`: the four sub-dictionaries of `ZOBRIEST_KEYS`, with the piece part flattened. */
  datatype KeyTable = KeyTable(
    pieces: map<PieceKey, Key>,
    castling: map<(Color, RookSide), Key>,
    enPassant: map<(Color, int), Key>,
    side: map<Color, Key>)

  function ColorOf(c: nat): Color requires c < 2 { if c == 0 then White else Black }

  function LetterPos(ch: char): (p: nat)
    requires ch in PieceLetters
    ensures p < 6 && PieceLetters[p] == ch
  {
    if ch == 'P' then 0 else if ch == 'N' then 1 else if ch == 'B' then 2
    else if ch == 'R' then 3 else if ch == 'Q' then 4 else 5
  }

  predicate IsPieceKey(k: PieceKey)
  {
    k.0 in PieceLetters && OnBoard(k.2, k.3)
  }

  /** The stream position the key of `k` is drawn from. */
  function PieceIndex(k: PieceKey): nat
    requires IsPieceKey(k)
  {
    128 * LetterPos(k.0) + 64 * ColorValue(k.1) + 8 * k.2 + k.3
  }

  lemma PieceIndexBound(k: PieceKey)
    requires IsPieceKey(k)
    ensures PieceIndex(k) < 768
  {
  }

  lemma PieceIndexInjective(k1: PieceKey, k2: PieceKey)
    requires IsPieceKey(k1) && IsPieceKey(k2) && PieceIndex(k1) == PieceIndex(k2)
    ensures k1 == k2
  {
    assert LetterPos(k1.0) == LetterPos(k2.0);
  }

  function CastlingIndex(c: Color, s: RookSide): nat
  {
    768 + 2 * ColorValue(c) + (if s == KingSide then 0 else 1)
  }

  function EnPassantIndexOf(c: Color, i: int): int { 772 + 8 * ColorValue(c) + i }

  /** The en-passant part of the table, after `n` of its 16 draws. */
  ghost predicate EnPassantUpTo(enPassant: map<(Color, int), Key>, stream: seq<Key>, n: nat)
    requires n <= 16 && |stream| >= TableSize
  {
    (forall k :: k in enPassant <==> 0 <= k.1 < 8 && 8 * ColorValue(k.0) + k.1 < n)
    && (forall k :: k in enPassant ==> 0 <= k.1 < 8 && enPassant[k] == stream[EnPassantIndexOf(k.0, k.1)])
  }

  function SideIndex(c: Color): nat { 788 + ColorValue(c) }

  /** The piece-key part of the table, after the first `n` draws. */
  ghost predicate PiecesUpTo(pieces: map<PieceKey, Key>, stream: seq<Key>, n: nat)
    requires n <= |stream|
  {
    (forall k :: k in pieces <==> IsPieceKey(k) && PieceIndex(k) < n)
    && (forall k :: k in pieces ==> PieceIndex(k) < n && pieces[k] == stream[PieceIndex(k)])
  }

  /**
   * The table `_initialize_zobrist_keys` builds from `stream`: a key for
   * every letter × colour × square, the four castling pairs, en-passant
   * indices 0..7 per colour and one side key per colour, each drawn from its
   * own stream position in fill order.
   */
  ghost predicate Matches(keys: KeyTable, stream: seq<Key>)
  {
    |stream| >= TableSize
    && PiecesUpTo(keys.pieces, stream, 768)
    && (forall c: Color, s: RookSide :: (c, s) in keys.castling && keys.castling[(c, s)] == stream[CastlingIndex(c, s)])
    && EnPassantUpTo(keys.enPassant, stream, 16)
    && (forall c: Color :: c in keys.side && keys.side[c] == stream[SideIndex(c)])
  }

  /** The domain the hash needs: every key it can look up is present. */
  predicate Complete(keys: KeyTable)
  {
    (forall k: Kind, c: Color, r, col :: 0 <= r < 8 && 0 <= col < 8 ==> (KindLetter(k), c, r, col) in keys.pieces)
    && (forall c: Color, s: RookSide :: (c, s) in keys.castling)
    && (forall c: Color, i :: 0 <= i < 8 ==> (c, i) in keys.enPassant)
    && (forall c: Color :: c in keys.side)
  }

  lemma MatchesComplete(keys: KeyTable, stream: seq<Key>)
    requires Matches(keys, stream)
    ensures Complete(keys)
  {
    forall c: Color, i | 0 <= i < 8 ensures (c, i) in keys.enPassant {
      assert 8 * ColorValue(c) + i < 16;
    }
    forall k: Kind, c: Color, r, col | OnBoard(r, col) ensures (KindLetter(k), c, r, col) in keys.pieces {
      assert KindLetter(k) in PieceLetters by {
        assert PieceLetters == ['P', 'N', 'B', 'R', 'Q', 'K'];
      }
      assert IsPieceKey((KindLetter(k), c, r, col));
      PieceIndexBound((KindLetter(k), c, r, col));
    }
  }

  /** The table is a function of the stream: equal streams give equal tables. */
  lemma Deterministic(k1: KeyTable, k2: KeyTable, stream: seq<Key>)
    requires Matches(k1, stream) && Matches(k2, stream)
    ensures k1 == k2
  {
    assert k1.pieces == k2.pieces;
    forall p | p in k1.castling ensures p in k2.castling && k1.castling[p] == k2.castling[p] { var (c, s) := p; }
    forall p | p in k2.castling ensures p in k1.castling { var (c, s) := p; }
    assert k1.castling == k2.castling;
    assert k1.enPassant == k2.enPassant;
    forall c | c in k2.side ensures c in k1.side && k1.side[c] == k2.side[c] { }
    assert k1.side == k2.side;
  }

  /** Distinct piece features draw distinct stream positions. */
  lemma DistinctDraws(keys: KeyTable, stream: seq<Key>, a: PieceKey, b: PieceKey)
    requires Matches(keys, stream) && a in keys.pieces && b in keys.pieces && a != b
    ensures PieceIndex(a) != PieceIndex(b)
  {
    if PieceIndex(a) == PieceIndex(b) { PieceIndexInjective(a, b); }
  }

  /** `ZobristHash`; the singleton metaclass that shares one instance is not modelled. */
  class ZobristHash {
    var keys: KeyTable

    constructor (stream: seq<Key>)
      requires |stream| >= TableSize
      ensures Matches(keys, stream)
    {
      var table := InitializeZobristKeys(stream);
      keys := table;
    }
  }

  lemma PiecesStep(pieces: map<PieceKey, Key>, stream: seq<Key>, n: nat, k: PieceKey)
    requires n < |stream| && PiecesUpTo(pieces, stream, n)
    requires IsPieceKey(k) && PieceIndex(k) == n
    ensures PiecesUpTo(pieces[k := stream[n]], stream, n + 1)
  {
    forall k' | IsPieceKey(k') && PieceIndex(k') == n ensures k' == k {
      PieceIndexInjective(k', k);
    }
  }

  lemma EnPassantStep(enPassant: map<(Color, int), Key>, stream: seq<Key>, c: nat, column: nat)
    requires c < 2 && column < 8 && |stream| >= TableSize
    requires EnPassantUpTo(enPassant, stream, 8 * c + column)
    ensures EnPassantUpTo(enPassant[(ColorOf(c), column) := stream[772 + 8 * c + column]], stream, 8 * c + column + 1)
  {
    assert ColorValue(ColorOf(c)) == c;
  }

  /** The piece part of `_initialize_zobrist_keys`: letter, colour, row, column, innermost last. */
  method InitializePieceKeys(stream: seq<Key>) returns (pieces: map<PieceKey, Key>)
    requires |stream| >= TableSize
    ensures PiecesUpTo(pieces, stream, 768)
  {
    pieces := map[];
    for p := 0 to 6
      invariant PiecesUpTo(pieces, stream, 128 * p)
    {
      for c := 0 to 2
        invariant PiecesUpTo(pieces, stream, 128 * p + 64 * c)
      {
        pieces := InitializeSquareKeys(pieces, stream, p, c);
      }
    }
  }

  /** The 64 square keys of one letter and colour, row by row. */
  method InitializeSquareKeys(pieces0: map<PieceKey, Key>, stream: seq<Key>, p: nat, c: nat)
    returns (pieces: map<PieceKey, Key>)
    requires p < 6 && c < 2 && |stream| >= TableSize
    requires PiecesUpTo(pieces0, stream, 128 * p + 64 * c)
    ensures PiecesUpTo(pieces, stream, 128 * p + 64 * c + 64)
  {
    pieces := pieces0;
    var next := 128 * p + 64 * c;
    for row := 0 to 8
      invariant next == 128 * p + 64 * c + 8 * row && PiecesUpTo(pieces, stream, next)
    {
      for column := 0 to 8
        invariant next == 128 * p + 64 * c + 8 * row + column && PiecesUpTo(pieces, stream, next)
      {
        var k: PieceKey := (PieceLetters[p], ColorOf(c), row, column);
        PiecesStep(pieces, stream, next, k);
        pieces := pieces[k := stream[next]];
        next := next + 1;
      }
    }
  }

  /** The en-passant part: white's eight columns, then black's. */
  method InitializeEnPassantKeys(stream: seq<Key>) returns (enPassant: map<(Color, int), Key>)
    requires |stream| >= TableSize
    ensures EnPassantUpTo(enPassant, stream, 16)
  {
    var next := 772;
    enPassant := map[];
    for c := 0 to 2
      invariant next == 772 + 8 * c && EnPassantUpTo(enPassant, stream, 8 * c)
    {
      for column := 0 to 8
        invariant next == 772 + 8 * c + column && EnPassantUpTo(enPassant, stream, 8 * c + column)
      {
        EnPassantStep(enPassant, stream, c, column);
        enPassant := enPassant[(ColorOf(c), column) := stream[next]];
        next := next + 1;
      }
    }
  }

  /** `_initialize_zobrist_keys`: the draws are taken from `stream` in the order its loops fill the tables. */
  method InitializeZobristKeys(stream: seq<Key>) returns (keys: KeyTable)
    requires |stream| >= TableSize
    ensures Matches(keys, stream)
  {
    var pieces := InitializePieceKeys(stream);
    var castling := map[
      (White, KingSide) := stream[768],
      (White, QueenSide) := stream[769],
      (Black, KingSide) := stream[770],
      (Black, QueenSide) := stream[771]];
    var enPassant := InitializeEnPassantKeys(stream);
    var side := map[White := stream[788], Black := stream[789]];
    keys := KeyTable(pieces, castling, enPassant, side);
    forall c: Color, s: RookSide
      ensures (c, s) in keys.castling && keys.castling[(c, s)] == stream[CastlingIndex(c, s)]
    {
      match (c, s)
      case (White, KingSide) =>
      case (White, QueenSide) =>
      case (Black, KingSide) =>
      case (Black, QueenSide) =>
    }
    forall c: Color ensures c in keys.side && keys.side[c] == stream[SideIndex(c)] {
      if c == White { } else { }
    }
  }

  // ------------------------------------------------------ XOR of keys

  lemma XorZero(a: Key)
    ensures Xor(Zero(), a) == a && Xor(a, Zero()) == a
  {
  }

  lemma XorAssoc(a: Key, b: Key, c: Key)
    ensures Xor(a, Xor(b, c)) == Xor(Xor(a, b), c)
  {
  }

  lemma XorComm(a: Key, b: Key)
    ensures Xor(a, b) == Xor(b, a)
  {
  }

  /** Every key is its own inverse, so XOR-ing a key a second time removes it. */
  lemma XorSelf(a: Key, b: Key)
    ensures Xor(Xor(a, b), b) == a
  {
  }

  /** XOR of a sequence of keys, folded from the front. */
  function XorSeq(s: seq<Key>): Key
  {
    if s == [] then Zero() else Xor(s[0], XorSeq(s[1..]))
  }

  lemma {:induction false} XorSeqConcat(s: seq<Key>, t: seq<Key>)
    ensures XorSeq(s + t) == Xor(XorSeq(s), XorSeq(t))
  {
    if s == [] {
      assert s + t == t;
      XorZero(XorSeq(t));
    } else {
      assert (s + t)[1..] == s[1..] + t;
      XorSeqConcat(s[1..], t);
      XorAssoc(s[0], XorSeq(s[1..]), XorSeq(t));
    }
  }

  lemma XorSeqSingle(x: Key)
    ensures XorSeq([x]) == x
  {
    assert [x][1..] == [];
    XorZero(x);
  }

  lemma XorSeqAppend(s: seq<Key>, x: Key)
    ensures XorSeq(s + [x]) == Xor(XorSeq(s), x)
  {
    XorSeqConcat(s, [x]);
    XorSeqSingle(x);
  }

  lemma {:induction false} XorSeqRemove(s: seq<Key>, j: nat)
    requires j < |s|
    ensures XorSeq(s) == Xor(s[j], XorSeq(s[..j] + s[j + 1..]))
  {
    var rest := s[..j] + s[j + 1..];
    if j > 0 {
      XorSeqRemove(s[1..], j - 1);
      assert s[1..][j - 1] == s[j];
      assert s[1..][..j - 1] + s[1..][j..] == rest[1..];
      XorAssoc(s[0], s[j], XorSeq(rest[1..]));
      XorAssoc(s[j], s[0], XorSeq(rest[1..]));
      XorComm(s[0], s[j]);
    } else {
      assert rest == s[1..];
    }
  }

  /** XOR is commutative and associative: any reordering of the keys gives the same hash. */
  lemma {:induction false} XorSeqPermutation(s: seq<Key>, t: seq<Key>)
    requires multiset(s) == multiset(t)
    ensures XorSeq(s) == XorSeq(t)
    decreases |s|
  {
    if s == [] {
      assert |t| == |multiset(t)| == 0;
    } else {
      assert s[0] in multiset(t);
      var j :| 0 <= j < |t| && t[j] == s[0];
      var t' := t[..j] + t[j + 1..];
      assert t == t[..j] + [t[j]] + t[j + 1..];
      assert multiset(t) == multiset(t[..j]) + multiset{t[j]} + multiset(t[j + 1..]);
      assert multiset(t') == multiset(t[..j]) + multiset(t[j + 1..]);
      assert s == [s[0]] + s[1..];
      assert multiset(s) == multiset{s[0]} + multiset(s[1..]);
      assert multiset(s[1..]) == multiset(s) - multiset{s[0]};
      assert multiset(t') == multiset(t) - multiset{t[j]};
      assert multiset(s[1..]) == multiset(t');
      XorSeqPermutation(s[1..], t');
      XorSeqRemove(t, j);
    }
  }

  /** The key when the flag is set, else the all-zero value (XOR's identity). */
  function Flag(b: bool, k: Key): Key { if b then k else Zero() }

  function Enabled(b: bool, k: Key): seq<Key> { if b then [k] else [] }

  lemma XorSeqEnabled(b: bool, k: Key)
    ensures XorSeq(Enabled(b, k)) == Flag(b, k)
  {
    if b { XorSeqSingle(k); }
  }

  lemma FlagToggle(b: bool, k: Key)
    ensures Flag(!b, k) == Xor(Flag(b, k), k)
  {
    XorZero(k);
  }

  // -------------------------------------------------------------- hashing

  function SquareKey(keys: KeyTable, cell: Cell, row: int, column: int): Key
    requires Complete(keys) && OnBoard(row, column)
  {
    match cell
    case Empty => Zero()
    case Occ(k, c) => keys.pieces[(KindLetter(k), c, row, column)]
  }

  predicate IsBoard(grid: seq<seq<Cell>>)
  {
    |grid| == 8 && forall r :: 0 <= r < 8 ==> |grid[r]| == 8
  }

  /**
   * The keys of the squares before (row, column) in row-major order, zero
   * for an empty square; `PieceKeys(keys, grid, 8, 0)` covers the board.
   */
  function PieceKeys(keys: KeyTable, grid: seq<seq<Cell>>, row: nat, column: nat): (r: seq<Key>)
    requires Complete(keys) && IsBoard(grid) && column <= 8 && (row < 8 || (row == 8 && column == 0))
    ensures |r| == 8 * row + column
    decreases row, column
  {
    if column == 0 then (if row == 0 then [] else PieceKeys(keys, grid, row - 1, 8))
    else PieceKeys(keys, grid, row, column - 1) + [SquareKey(keys, grid[row][column - 1], row, column - 1)]
  }

  /** The order `castleling_rights.items()` yields its entries in. */
  const CastlingOrder: seq<(Color, RookSide)> :=
    [(White, KingSide), (White, QueenSide), (Black, KingSide), (Black, QueenSide)]

  /** The keys of the enabled rights among the first `n` entries of `CastlingOrder`. */
  function CastlingKeys(keys: KeyTable, rights: CastlingRights, n: nat): (r: seq<Key>)
    requires Complete(keys) && n <= 4
    ensures |r| <= n
  {
    if n == 0 then []
    else
      var (c, s) := CastlingOrder[n - 1];
      CastlingKeys(keys, rights, n - 1) + Enabled(rights.Get(c, s), keys.castling[(c, s)])
  }

  /** The 64-bit value before it is turned into bytes. */
  function HashValue(keys: KeyTable, grid: seq<seq<Cell>>, rights: CastlingRights,
                     enPassant: Option<int>, side: Color): Key
    requires Complete(keys) && IsBoard(grid)
    requires enPassant.Some? ==> 0 <= enPassant.value < 8
  {
    var pieces := XorSeq(PieceKeys(keys, grid, 8, 0));
    var castling := Xor(pieces, XorSeq(CastlingKeys(keys, rights, 4)));
    if enPassant.None? then Xor(castling, keys.side[side])
    else Xor(Xor(castling, keys.enPassant[(side, enPassant.value)]), keys.side[side])
  }

  /** One byte: eight bits, the most significant first. */
  type Byte = b: seq<bool> | |b| == 8 witness seq(8, i => false)

  /** `to_bytes(8, byteorder='big', signed=False)`: the most significant byte first. */
  function ToBytes(h: Key): (b: seq<Byte>)
    ensures |b| == 8
    ensures forall i :: 0 <= i < 8 ==> b[i] == h[8 * i .. 8 * i + 8]
  {
    seq(8, i requires 0 <= i < 8 => h[8 * i .. 8 * i + 8])
  }

  /** `int.from_bytes(b, byteorder='big')` on 8 bytes. */
  function FromBytes(b: seq<Byte>): seq<bool>
  {
    if b == [] then [] else b[0] + FromBytes(b[1..])
  }

  lemma {:induction false} FromBytesSlices(h: seq<bool>, n: nat)
    requires |h| == 8 * n
    ensures FromBytes(seq(n, i requires 0 <= i < n => h[8 * i .. 8 * i + 8])) == h
  {
    if n > 0 {
      var b := seq(n, i requires 0 <= i < n => h[8 * i .. 8 * i + 8]);
      var rest := seq(n - 1, i requires 0 <= i < n - 1 => h[8..][8 * i .. 8 * i + 8]);
      forall i | 0 <= i < n - 1 ensures b[1..][i] == rest[i] {
        assert h[8..][8 * i .. 8 * i + 8] == h[8 * (i + 1) .. 8 * (i + 1) + 8];
      }
      assert b[1..] == rest;
      FromBytesSlices(h[8..], n - 1);
      assert h == h[..8] + h[8..];
    }
  }

  /** The 8 bytes spell the value out in full: nothing is lost. */
  lemma BytesRoundTrip(h: Key)
    ensures FromBytes(ToBytes(h)) == h
  {
    FromBytesSlices(h, 8);
  }

  lemma ToBytesInjective(h1: Key, h2: Key)
    ensures ToBytes(h1) == ToBytes(h2) <==> h1 == h2
  {
    if ToBytes(h1) == ToBytes(h2) {
      BytesRoundTrip(h1);
      BytesRoundTrip(h2);
    }
  }

  /**
   * The en-passant index as `compute_hash` computes it: `int(en_passant_pos[1])`,
   * the rank digit of the square, looked up in a table keyed 0..7.
   */
  function EnPassantIndexAsWritten(pos: string): (r: Result<int>)
    ensures r.Ok? <==> |pos| >= 2 && IsDigit(pos[1]) && DigitValue(pos[1]) < 8
    ensures r.Ok? ==> r.value == DigitValue(pos[1])
  {
    if |pos| < 2 then Err(IndexError)
    else if !IsDigit(pos[1]) then Err(ValueError)
    else if DigitValue(pos[1]) >= 8 then Err(KeyError)
    else Ok(DigitValue(pos[1]))
  }

  /** The en-passant index the table is laid out for: the file (column) of the square. */
  function EnPassantIndex(pos: string): (r: Result<int>)
    ensures r.Ok? ==> 0 <= r.value < 8
    ensures IsSquareName(pos) ==> r == Ok(pos[0] as int - 'a' as int)
  {
    if |pos| < 1 then Err(IndexError)
    else if !(0 <= pos[0] as int - 97 < 8) then Err(KeyError)
    else Ok(pos[0] as int - 97)
  }

  /** The hash, given the en-passant index the square was mapped to (None: no en-passant square). */
  function HashOf(keys: KeyTable, grid: seq<seq<Cell>>, enPassantIndex: Option<Result<int>>,
                  rights: CastlingRights, side: Color): (r: Result<seq<Byte>>)
    requires Complete(keys) && IsBoard(grid)
    requires enPassantIndex.Some? && enPassantIndex.value.Ok? ==> 0 <= enPassantIndex.value.value < 8
    ensures r.Ok? ==> |r.value| == 8
  {
    match enPassantIndex
    case None => Ok(ToBytes(HashValue(keys, grid, rights, None, side)))
    case Some(Err(e)) => Err(e)
    case Some(Ok(i)) => Ok(ToBytes(HashValue(keys, grid, rights, Some(i), side)))
  }

  function MapOption(pos: Option<string>, f: string -> Result<int>): Option<Result<int>>
  {
    if pos.None? then None else Some(f(pos.value))
  }

  /** `compute_game_state_hash` as written: the rank digit indexes the en-passant keys. */
  function ComputeGameStateHashAsWritten(keys: KeyTable, grid: seq<seq<Cell>>, enPassantPos: Option<string>,
                                         rights: CastlingRights, side: Color): (r: Result<seq<Byte>>)
    requires Complete(keys) && IsBoard(grid)
    ensures r.Ok? ==> |r.value| == 8
  {
    HashOf(keys, grid, MapOption(enPassantPos, EnPassantIndexAsWritten), rights, side)
  }

  /** The XOR of the keys of all pieces on the board, square by square. */
  method BoardHash(keys: KeyTable, grid: seq<seq<Cell>>) returns (h: Key)
    requires Complete(keys) && IsBoard(grid)
    ensures h == XorSeq(PieceKeys(keys, grid, 8, 0))
  {
    h := Zero();
    for row := 0 to 8
      invariant h == XorSeq(PieceKeys(keys, grid, row, 0))
    {
      for column := 0 to 8
        invariant h == XorSeq(PieceKeys(keys, grid, row, column))
      {
        var cell := grid[row][column];
        PieceKeysStep(keys, grid, row, column);
        if cell.Occ? {
          h := Xor(h, keys.pieces[(KindLetter(cell.kind), cell.color, row, column)]);
        } else {
          XorZero(h);
        }
      }
    }
  }

  lemma PieceKeysStep(keys: KeyTable, grid: seq<seq<Cell>>, row: nat, column: nat)
    requires Complete(keys) && IsBoard(grid) && row < 8 && column < 8
    ensures XorSeq(PieceKeys(keys, grid, row, column + 1))
         == Xor(XorSeq(PieceKeys(keys, grid, row, column)), SquareKey(keys, grid[row][column], row, column))
  {
    XorSeqAppend(PieceKeys(keys, grid, row, column), SquareKey(keys, grid[row][column], row, column));
  }

  lemma CastlingStep(keys: KeyTable, rights: CastlingRights, n: nat)
    requires Complete(keys) && n < 4
    ensures XorSeq(CastlingKeys(keys, rights, n + 1))
         == Xor(XorSeq(CastlingKeys(keys, rights, n)),
                Flag(rights.Get(CastlingOrder[n].0, CastlingOrder[n].1), keys.castling[CastlingOrder[n]]))
  {
    var (c, s) := CastlingOrder[n];
    XorSeqConcat(CastlingKeys(keys, rights, n), Enabled(rights.Get(c, s), keys.castling[(c, s)]));
    XorSeqEnabled(rights.Get(c, s), keys.castling[(c, s)]);
  }

  /** The XOR of the keys of the enabled castling rights, colour by colour and side by side. */
  method CastlingHash(keys: KeyTable, rights: CastlingRights) returns (h: Key)
    requires Complete(keys)
    ensures h == XorSeq(CastlingKeys(keys, rights, 4))
  {
    h := Zero();
    for c := 0 to 2
      invariant h == XorSeq(CastlingKeys(keys, rights, 2 * c))
    {
      for j := 0 to 2
        invariant h == XorSeq(CastlingKeys(keys, rights, 2 * c + j))
      {
        var (color, side) := CastlingOrder[2 * c + j];
        CastlingStep(keys, rights, 2 * c + j);
        if rights.Get(color, side) {
          h := Xor(h, keys.castling[(color, side)]);
        } else {
          XorZero(h);
        }
      }
    }
  }

  /**
   * `compute_game_state_hash`, with the en-passant key indexed by file as the
   * table is laid out: XOR of the occupied squares' keys, the enabled castling
   * rights' keys, the en-passant key and the side-to-move key, as 8 bytes.
   */
  method ComputeGameStateHash(keys: KeyTable, grid: seq<seq<Cell>>, enPassantPos: Option<string>,
                              rights: CastlingRights, side: Color) returns (r: Result<seq<Byte>>)
    requires Complete(keys) && IsBoard(grid)
    ensures r == HashOf(keys, grid, MapOption(enPassantPos, EnPassantIndex), rights, side)
  {
    var h := BoardHash(keys, grid);
    var castlingHash := CastlingHash(keys, rights);
    h := Xor(h, castlingHash);
    if enPassantPos.Some? {
      var index := EnPassantIndex(enPassantPos.value);
      if index.Err? {
        return Err(index.error);
      }
      h := Xor(h, keys.enPassant[(side, index.value)]);
    }
    h := Xor(h, keys.side[side]);
    r := Ok(ToBytes(h));
  }

  /** The castling part as one XOR of four flags. */
  lemma CastlingXor(keys: KeyTable, rights: CastlingRights)
    requires Complete(keys)
    ensures XorSeq(CastlingKeys(keys, rights, 4))
         == Xor(Xor(Xor(Flag(rights.whiteKing, keys.castling[(White, KingSide)]),
                        Flag(rights.whiteQueen, keys.castling[(White, QueenSide)])),
                    Flag(rights.blackKing, keys.castling[(Black, KingSide)])),
                Flag(rights.blackQueen, keys.castling[(Black, QueenSide)]))
  {
    CastlingStep(keys, rights, 0);
    CastlingStep(keys, rights, 1);
    CastlingStep(keys, rights, 2);
    CastlingStep(keys, rights, 3);
    XorZero(Flag(rights.whiteKing, keys.castling[(White, KingSide)]));
  }

  /** Toggling one castling right adds or removes exactly that right's key. */
  lemma CastlingKeysToggle(keys: KeyTable, rights: CastlingRights, c: Color, s: RookSide)
    requires Complete(keys)
    ensures XorSeq(CastlingKeys(keys, rights.Set(c, s, !rights.Get(c, s)), 4))
         == Xor(XorSeq(CastlingKeys(keys, rights, 4)), keys.castling[(c, s)])
  {
    var r' := rights.Set(c, s, !rights.Get(c, s));
    CastlingXor(keys, rights);
    CastlingXor(keys, r');
    var k := keys.castling[(c, s)];
    FlagToggle(rights.Get(c, s), k);
    var a := Flag(rights.whiteKing, keys.castling[(White, KingSide)]);
    var b := Flag(rights.whiteQueen, keys.castling[(White, QueenSide)]);
    var d := Flag(rights.blackKing, keys.castling[(Black, KingSide)]);
    var e := Flag(rights.blackQueen, keys.castling[(Black, QueenSide)]);
    XorToggleAt(a, b, d, e, k);
  }

  lemma XorToggleAt(a: Key, b: Key, c: Key, d: Key, k: Key)
    ensures Xor(Xor(Xor(Xor(a, k), b), c), d) == Xor(Xor(Xor(Xor(a, b), c), d), k)
    ensures Xor(Xor(Xor(a, Xor(b, k)), c), d) == Xor(Xor(Xor(Xor(a, b), c), d), k)
    ensures Xor(Xor(Xor(a, b), Xor(c, k)), d) == Xor(Xor(Xor(Xor(a, b), c), d), k)
    ensures Xor(Xor(Xor(a, b), c), Xor(d, k)) == Xor(Xor(Xor(Xor(a, b), c), d), k)
  {
  }

  /** Toggling one castling right changes the hash value by exactly that right's key. */
  lemma CastlingToggle(keys: KeyTable, grid: seq<seq<Cell>>, rights: CastlingRights,
                       enPassant: Option<int>, side: Color, c: Color, s: RookSide)
    requires Complete(keys) && IsBoard(grid)
    requires enPassant.Some? ==> 0 <= enPassant.value < 8
    ensures HashValue(keys, grid, rights.Set(c, s, !rights.Get(c, s)), enPassant, side)
         == Xor(HashValue(keys, grid, rights, enPassant, side), keys.castling[(c, s)])
  {
    CastlingKeysToggle(keys, rights, c, s);
    var p := XorSeq(PieceKeys(keys, grid, 8, 0));
    var e := if enPassant.Some? then keys.enPassant[(side, enPassant.value)] else Zero();
    XorToggleOuter(p, XorSeq(CastlingKeys(keys, rights, 4)), e, keys.side[side], keys.castling[(c, s)]);
  }

  lemma XorToggleOuter(p: Key, c: Key, e: Key, s: Key, k: Key)
    ensures Xor(Xor(p, Xor(c, k)), s) == Xor(Xor(Xor(p, c), s), k)
    ensures Xor(Xor(Xor(p, Xor(c, k)), e), s) == Xor(Xor(Xor(Xor(p, c), e), s), k)
  {
  }

  /**
   * As written, two positions that differ only in which of two pawns on the
   * same rank may be taken en passant (d4 or e4) hash alike whatever the keys.
   */
  lemma EnPassantRankCollision(keys: KeyTable, grid: seq<seq<Cell>>, rights: CastlingRights, side: Color)
    requires Complete(keys) && IsBoard(grid)
    ensures ComputeGameStateHashAsWritten(keys, grid, Some("d4"), rights, side)
         == ComputeGameStateHashAsWritten(keys, grid, Some("e4"), rights, side)
  {
    assert MapOption(Some("d4"), EnPassantIndexAsWritten) == Some(Ok(4));
    assert MapOption(Some("e4"), EnPassantIndexAsWritten) == Some(Ok(4));
  }

  /** With the file as index, the same two positions hash alike only if their two keys coincide. */
  lemma EnPassantFileDistinguishes(keys: KeyTable, grid: seq<seq<Cell>>, rights: CastlingRights, side: Color)
    requires Complete(keys) && IsBoard(grid)
    ensures HashOf(keys, grid, MapOption(Some("d4"), EnPassantIndex), rights, side)
         == HashOf(keys, grid, MapOption(Some("e4"), EnPassantIndex), rights, side)
        <==> keys.enPassant[(side, 3)] == keys.enPassant[(side, 4)]
  {
    var x := Xor(XorSeq(PieceKeys(keys, grid, 8, 0)), XorSeq(CastlingKeys(keys, rights, 4)));
    var a := keys.enPassant[(side, 3)];
    var b := keys.enPassant[(side, 4)];
    var y := keys.side[side];
    var hd := HashValue(keys, grid, rights, Some(3), side);
    var he := HashValue(keys, grid, rights, Some(4), side);
    assert IsSquareName("d4") && IsSquareName("e4");
    assert MapOption(Some("d4"), EnPassantIndex) == Some(Ok(3));
    assert MapOption(Some("e4"), EnPassantIndex) == Some(Ok(4));
    ToBytesInjective(hd, he);
    if hd == he {
      XorSelf(Xor(x, a), y);
      XorSelf(Xor(x, b), y);
      XorComm(x, a);
      XorComm(x, b);
      XorSelf(a, x);
      XorSelf(b, x);
    }
  }
}
