/**
 * `BoardEncoder`: the board as an 8x8x12 one-hot array (one channel per
 * kind and colour) and the decoding that `visualize_encoded_board` prints.
 */
module BoardEncoding {
  import opened Python
  import opened Notation
  import opened ChessBoard

  /** `piece_to_channel`: P=0, N=1, B=2, R=3, Q=4, K=5. */
  function KindChannel(k: Kind): (ch: nat)
    ensures ch < 6
  {
    match k
    case Pawn => 0
    case Knight => 1
    case Bishop => 2
    case Rook => 3
    case Queen => 4
    case King => 5
  }

  /** `inverse_piece_to_channel`. */
  function ChannelKind(ch: nat): Kind
    requires ch < 6
  {
    [Pawn, Knight, Bishop, Rook, Queen, King][ch]
  }

  /** The channel of a piece: its kind's channel, plus 6 for black. */
  function PieceChannel(k: Kind, c: Color): (ch: nat)
    ensures ch < 12
    ensures ch % 6 == KindChannel(k) && (ch >= 6 <==> c == Black)
  {
    KindChannel(k) + (if c == Black then 6 else 0)
  }

  /** The twelve channels of one cell: a single 1 for a piece, all 0 for an empty cell. */
  function Channels(cell: Cell): (v: seq<int>)
    ensures |v| == 12
  {
    seq(12, ch => if cell.Occ? && ch == PieceChannel(cell.kind, cell.color) then 1 else 0)
  }

  /** `encode_board`: a zeroed (8, 8, 12) array with a 1 on the channel of every piece. */
  method EncodeBoard(board: Board) returns (state: array3<int>)
    requires board.Valid()
    ensures fresh(state)
    ensures state.Length0 == 8 && state.Length1 == 8 && state.Length2 == 12
    ensures forall r, c, ch :: 0 <= r < 8 && 0 <= c < 8 && 0 <= ch < 12 ==>
              state[r, c, ch] == Channels(board.View()[r][c])[ch]
  {
    state := new int[8, 8, 12]((r, c, ch) => 0);
    for row := 0 to 8
      invariant forall r, c, ch :: 0 <= r < 8 && 0 <= c < 8 && 0 <= ch < 12 ==>
                  state[r, c, ch] == if r < row then Channels(board.View()[r][c])[ch] else 0
    {
      for column := 0 to 8
        invariant forall r, c, ch :: 0 <= r < 8 && 0 <= c < 8 && 0 <= ch < 12 ==>
                    state[r, c, ch] == if r < row || (r == row && c < column) then Channels(board.View()[r][c])[ch] else 0
      {
        var found := board.GetSquareOrPiece(row, column);
        if found.value.At? {
          var piece := found.value.piece;
          var channel := KindChannel(piece.kind);
          if piece.color == Black {
            channel := channel + 6;
          }
          state[row, column, channel] := 1;
        }
      }
    }
  }

  /**
   * The decoding of `visualize_encoded_board`: the first channel holding 1
   * gives the kind (channel mod 6) and the colour (black from channel 6 on).
   */
  function DecodeFrom(channels: seq<int>, ch: nat): Option<(Kind, Color)>
    requires |channels| == 12 && ch <= 12
    decreases 12 - ch
  {
    if ch == 12 then None
    else if channels[ch] == 1 then Some((ChannelKind(ch % 6), if ch >= 6 then Black else White))
    else DecodeFrom(channels, ch + 1)
  }

  function DecodeCell(channels: seq<int>): Option<(Kind, Color)>
    requires |channels| == 12
  {
    DecodeFrom(channels, 0)
  }

  /** What `visualize_encoded_board` prints for one cell: letter and W/B, or "0". */
  function VisualCell(channels: seq<int>): (s: string)
    requires |channels| == 12
    ensures DecodeCell(channels).None? <==> s == "0"
  {
    match DecodeCell(channels)
    case None => "0"
    case Some((k, c)) => [KindLetter(k), if c == Black then 'B' else 'W']
  }

  lemma {:induction false} DecodeFromZeros(channels: seq<int>, ch: nat)
    requires |channels| == 12 && ch <= 12
    requires forall i :: ch <= i < 12 ==> channels[i] != 1
    ensures DecodeFrom(channels, ch) == None
    decreases 12 - ch
  {
    if ch < 12 {
      DecodeFromZeros(channels, ch + 1);
    }
  }

  lemma {:induction false} DecodeFromHit(channels: seq<int>, ch: nat, hit: nat)
    requires |channels| == 12 && ch <= hit < 12 && channels[hit] == 1
    requires forall i :: ch <= i < hit ==> channels[i] != 1
    ensures DecodeFrom(channels, ch) == Some((ChannelKind(hit % 6), if hit >= 6 then Black else White))
    decreases hit - ch
  {
    if ch < hit {
      DecodeFromHit(channels, ch + 1, hit);
    }
  }

  /** Decoding inverts the encoding, cell by cell. */
  lemma DecodeEncode(cell: Cell)
    ensures DecodeCell(Channels(cell)) == if cell.Empty? then None else Some((cell.kind, cell.color))
  {
    var v := Channels(cell);
    if cell.Empty? {
      DecodeFromZeros(v, 0);
    } else {
      var hit := PieceChannel(cell.kind, cell.color);
      DecodeFromHit(v, 0, hit);
      assert ChannelKind(hit % 6) == cell.kind;
    }
  }

  /** How many channels of a cell hold 1. */
  function Ones(v: seq<int>): nat
  {
    if v == [] then 0 else Ones(v[..|v| - 1]) + (if v[|v| - 1] == 1 then 1 else 0)
  }

  lemma {:induction false} OnesSingle(v: seq<int>, hit: int)
    requires forall i :: 0 <= i < |v| ==> v[i] == (if i == hit then 1 else 0)
    ensures Ones(v) == if 0 <= hit < |v| then 1 else 0
  {
    if v != [] {
      OnesSingle(v[..|v| - 1], hit);
    }
  }

  /** An occupied cell has exactly one channel set, an empty cell none. */
  lemma OnesOfCell(cell: Cell)
    ensures Ones(Channels(cell)) == if cell.Occ? then 1 else 0
  {
    var v := Channels(cell);
    var hit := if cell.Occ? then PieceChannel(cell.kind, cell.color) else -1;
    OnesSingle(v, hit);
  }

  /** The ones on the first `n` squares, in row-major order. */
  function BoardOnes(view: seq<seq<Cell>>, n: nat): nat
    requires |view| == 8 && (forall r :: 0 <= r < 8 ==> |view[r]| == 8) && n <= 64
  {
    if n == 0 then 0 else BoardOnes(view, n - 1) + Ones(Channels(view[(n - 1) / 8][(n - 1) % 8]))
  }

  /** The pieces on the first `n` squares, in row-major order. */
  function PieceCount(view: seq<seq<Cell>>, n: nat): nat
    requires |view| == 8 && (forall r :: 0 <= r < 8 ==> |view[r]| == 8) && n <= 64
  {
    if n == 0 then 0 else PieceCount(view, n - 1) + (if view[(n - 1) / 8][(n - 1) % 8].Occ? then 1 else 0)
  }

  /** The encoding holds as many ones as the board holds pieces. */
  lemma {:induction false} OnesCountPieces(view: seq<seq<Cell>>, n: nat)
    requires |view| == 8 && (forall r :: 0 <= r < 8 ==> |view[r]| == 8) && n <= 64
    ensures BoardOnes(view, n) == PieceCount(view, n)
  {
    if n > 0 {
      OnesCountPieces(view, n - 1);
      OnesOfCell(view[(n - 1) / 8][(n - 1) % 8]);
    }
  }
}
