/**
 * The legacy game controller of game/game.py: the board, the move log per
 * turn, whose turn it is, and the pawn of each side that may be taken en
 * passant. A move is decoded by the legacy `PieceMove`, the piece that makes
 * it is looked up among the mover's pieces of the named kind, the en-passant
 * bookkeeping is updated, the piece is moved with `move_to`, and the log
 * records the move.
 *
 * As written, `move_piece` reads `piece_name`, `row` and `coronation_into`
 * off a `PieceMove` that has none of them, and `_manage_game_state` calls
 * `opposite()` on a colour enum that lacks it; `MovePieceAsWritten` keeps
 * that, and `Game.MovePiece` is the controller with those attributes given
 * their evident meaning.
 */
module LegacyGame {
  import opened Python
  import opened Notation
  import opened LegacyBoard
  import opened LegacyRules
  import LegacyMove
  import ChessBoard

  // ------------------------------------------------------------- the log

  /** `moves`, `player_turn` and `current_turn`. */
  datatype Log = Log(moves: map<int, seq<string>>, playerTurn: Color, currentTurn: int)

  /** A new game's log: no moves, White to move, turn 1. */
  const NewLog: Log := Log(map[], White, 1)

  /**
   * `_manage_game_state`: the move joins the list of the current turn
   * (created when missing), the turn passes to the other colour, and the
   * turn number grows once Black has moved.
   */
  function Logged(l: Log, move: string): (r: Log)
    ensures r.playerTurn != l.playerTurn
    ensures r.moves.Keys == l.moves.Keys + {l.currentTurn}
    ensures forall k :: k in l.moves && k != l.currentTurn ==> r.moves[k] == l.moves[k]
    ensures r.currentTurn == l.currentTurn + (if r.playerTurn == White then 1 else 0)
  {
    var list := if l.currentTurn in l.moves then l.moves[l.currentTurn] else [];
    var next := l.playerTurn.Opposite();
    Log(l.moves[l.currentTurn := list + [move]], next, if next == White then l.currentTurn + 1 else l.currentTurn)
  }

  /** The log after the moves `ms`, made one by one from a new game. */
  function Replayed(ms: seq<string>): Log
  {
    if ms == [] then NewLog else Logged(Replayed(ms[..|ms| - 1]), ms[|ms| - 1])
  }

  /** The moves of turn k: the (2k-1)-th and the 2k-th of the game, as far as they were made. */
  function TurnMoves(ms: seq<string>, k: int): seq<string>
    requires 1 <= k <= (|ms| + 1) / 2
  {
    ms[2 * k - 2 .. if 2 * k <= |ms| then 2 * k else |ms|]
  }

  /** Every turn played so far, with White's move first and Black's second. */
  function Paired(ms: seq<string>): map<int, seq<string>>
  {
    map k | 1 <= k <= (|ms| + 1) / 2 :: TurnMoves(ms, k)
  }

  /**
   * Playing moves from a new game gives the log the class comment
   * describes: turn k holds White's and then Black's move of that turn,
   * White is to move after an even number of moves, and the turn number is
   * one more than the number of completed turns.
   */
  lemma {:induction false} ReplayPairs(ms: seq<string>)
    ensures Replayed(ms) == Log(Paired(ms), if |ms| % 2 == 0 then White else Black, |ms| / 2 + 1)
  {
    if ms != [] {
      var front, m := ms[..|ms| - 1], ms[|ms| - 1];
      assert ms == front + [m];
      ReplayPairs(front);
      LogPairs(Replayed(front), front, m);
    }
  }

  /** One more move keeps the log paired. */
  lemma LogPairs(l: Log, front: seq<string>, m: string)
    requires l == Log(Paired(front), if |front| % 2 == 0 then White else Black, |front| / 2 + 1)
    ensures Logged(l, m) == Log(Paired(front + [m]), if |front| % 2 == 0 then Black else White, (|front| + 1) / 2 + 1)
  {
    if |front| % 2 == 0 {
      var h := |front| / 2;
      assert |front| == 2 * h && (|front| + 1) / 2 == h;
      PairedWhite(front, m);
      assert h + 1 !in l.moves;
      assert [] + [m] == [m];
      assert Logged(l, m).moves == Paired(front + [m]);
      assert Logged(l, m).playerTurn == Black;
      assert Logged(l, m).currentTurn == h + 1;
    } else {
      var h := |front| / 2;
      assert |front| == 2 * h + 1 && (|front| + 1) / 2 == h + 1;
      PairedBlack(front, m);
      assert Logged(l, m).moves == Paired(front + [m]);
      assert Logged(l, m).playerTurn == White;
      assert Logged(l, m).currentTurn == h + 2;
    }
  }

  /** White's move opens a new turn holding just that move. */
  lemma PairedWhite(front: seq<string>, m: string)
    requires |front| % 2 == 0
    ensures Paired(front + [m]) == Paired(front)[|front| / 2 + 1 := [m]]
  {
    var ms, h := front + [m], |front| / 2;
    assert |front| == 2 * h;
    var c := h + 1;
    assert (|front| + 1) / 2 == h && (|ms| + 1) / 2 == c;
    assert TurnMoves(ms, c) == [m] by {
      assert ms[2 * h .. 2 * h + 1] == [m];
    }
    forall k | 1 <= k < c
      ensures TurnMoves(ms, k) == TurnMoves(front, k)
    {
      assert 2 * k <= |front|;
      assert ms[2 * k - 2 .. 2 * k] == front[2 * k - 2 .. 2 * k];
    }
    var after := Paired(front)[c := [m]];
    assert Paired(ms).Keys == after.Keys;
    assert forall k :: k in after ==> Paired(ms)[k] == after[k];
  }

  /** Black's move completes the open turn. */
  lemma PairedBlack(front: seq<string>, m: string)
    requires |front| % 2 == 1
    ensures (|front| + 1) / 2 in Paired(front)
    ensures Paired(front + [m]) == Paired(front)[(|front| + 1) / 2 := Paired(front)[(|front| + 1) / 2] + [m]]
  {
    var ms, h := front + [m], |front| / 2;
    assert |front| == 2 * h + 1;
    var c := h + 1;
    assert (|front| + 1) / 2 == c && (|ms| + 1) / 2 == c;
    assert TurnMoves(ms, c) == TurnMoves(front, c) + [m] by {
      assert ms[2 * h .. 2 * h + 2] == front[2 * h ..] + [m];
    }
    forall k | 1 <= k < c
      ensures TurnMoves(ms, k) == TurnMoves(front, k)
    {
      assert 2 * k <= |front|;
      assert ms[2 * k - 2 .. 2 * k] == front[2 * k - 2 .. 2 * k];
    }
    var after := Paired(front)[c := TurnMoves(front, c) + [m]];
    assert Paired(ms).Keys == after.Keys;
    assert forall k :: k in after ==> Paired(ms)[k] == after[k];
  }

  // ------------------------------------------------------------ requests

  /**
   * What `move_piece` and its helpers read off a `PieceMove`: the move as
   * given, the kind of piece, the file and row that single it out, the
   * target square's name and the castling flag and side.
   */
  datatype Request = Request(move: string, kind: Kind, pieceFile: Option<char>, row: Option<int>,
                             square: string, isCastling: bool, castlingSide: Option<RookSide>)

  /** The request a decoded legacy move stands for; the legacy decoder never names a row. */
  function RequestOf(move: string, d: LegacyMove.Decoded): (req: Request)
    ensures req.move == move && req.kind == d.kind && req.pieceFile == d.pieceFile && req.row.None?
    ensures req.square == d.square && req.isCastling == d.isCastling && req.castlingSide == d.castlingSide
  {
    Request(move, d.kind, d.pieceFile, None, d.square, d.isCastling, d.castlingSide)
  }

  // ------------------------------------------------------ choosing a piece

  /** The filters of `_get_movable_piece`: the file of the piece's square and its row, where the move names them. */
  predicate Passes(req: Request, at: (int, int))
    requires OnBoard(at.0, at.1)
  {
    (req.pieceFile.None? || SquareName(at.0, at.1)[0] == req.pieceFile.value) &&
    (req.row.None? || at.0 == req.row.value)
  }

  /** A piece the loop passes over: filtered out, or its square names do not include the target. */
  predicate Skipped(req: Request, at: (int, int), answer: Result<seq<Entry>>)
    requires OnBoard(at.0, at.1)
  {
    !Passes(req, at) || (answer.Ok? && Name(req.square) !in answer.value)
  }

  /** The piece the loop stops at: it passes the filters and its square names include the target. */
  predicate Found(req: Request, at: (int, int), answer: Result<seq<Entry>>)
    requires OnBoard(at.0, at.1)
  {
    Passes(req, at) && answer.Ok? && Name(req.square) in answer.value
  }

  predicate AllOnBoard(at: seq<(int, int)>)
  {
    forall k :: 0 <= k < |at| ==> OnBoard(at[k].0, at[k].1)
  }

  /** An index found further along, counted from the start. */
  function Shifted(r: Result<nat>, offset: nat): Result<nat>
  {
    if r.Ok? then Ok(r.value + offset) else r
  }

  /**
   * `_get_movable_piece` on the pieces' squares and the answers of their
   * `calculate_legal_moves(show_in_algebraic_notation=True)`: the index of
   * the first piece it stops at, the error of the first piece that passes
   * the filters but cannot list its moves, or a ValueError.
   */
  function Pick(req: Request, at: seq<(int, int)>, answers: seq<Result<seq<Entry>>>): (r: Result<nat>)
    requires |at| == |answers| && AllOnBoard(at)
    ensures r.Ok? ==> r.value < |at|
  {
    if at == [] then Err(ValueError)
    else if !Passes(req, at[0]) then Shifted(Pick(req, at[1..], answers[1..]), 1)
    else if answers[0].Err? then Err(answers[0].error)
    else if Name(req.square) in answers[0].value then Ok(0)
    else Shifted(Pick(req, at[1..], answers[1..]), 1)
  }

  /** The piece at index i is the one chosen when every piece before it is passed over. */
  lemma {:induction false} PickFirst(req: Request, at: seq<(int, int)>, answers: seq<Result<seq<Entry>>>, i: nat)
    requires |at| == |answers| && AllOnBoard(at) && i < |at|
    requires Found(req, at[i], answers[i])
    requires forall j :: 0 <= j < i ==> Skipped(req, at[j], answers[j])
    ensures Pick(req, at, answers) == Ok(i)
  {
    if i > 0 {
      assert Skipped(req, at[0], answers[0]);
      PickFirst(req, at[1..], answers[1..], i - 1);
    }
  }

  /** A chosen piece passes the filters, lists the target, and every piece before it is passed over. */
  lemma {:induction false} PickSound(req: Request, at: seq<(int, int)>, answers: seq<Result<seq<Entry>>>)
    requires |at| == |answers| && AllOnBoard(at) && Pick(req, at, answers).Ok?
    ensures var i := Pick(req, at, answers).value;
            Found(req, at[i], answers[i]) && forall j :: 0 <= j < i ==> Skipped(req, at[j], answers[j])
  {
    if !Found(req, at[0], answers[0]) {
      PickSound(req, at[1..], answers[1..]);
      var i := Pick(req, at, answers).value;
      forall j | 0 <= j < i
        ensures Skipped(req, at[j], answers[j])
      {
        if j > 0 {
          assert at[j] == at[1..][j - 1] && answers[j] == answers[1..][j - 1];
        }
      }
    }
  }

  /** When every piece is passed over, no piece can make the move: a ValueError. */
  lemma {:induction false} PickNone(req: Request, at: seq<(int, int)>, answers: seq<Result<seq<Entry>>>)
    requires |at| == |answers| && AllOnBoard(at)
    requires forall j :: 0 <= j < |at| ==> Skipped(req, at[j], answers[j])
    ensures Pick(req, at, answers) == Err(ValueError)
  {
    if at != [] {
      assert Skipped(req, at[0], answers[0]);
      PickNone(req, at[1..], answers[1..]);
    }
  }

  /** The squares of the pieces, in order. */
  function Positions(ps: seq<Piece>): (at: seq<(int, int)>)
    reads set p | p in ps
    ensures |at| == |ps| && forall k :: 0 <= k < |ps| ==> at[k] == ps[k].position
  {
    seq(|ps|, k reads set p | p in ps requires 0 <= k < |ps| => ps[k].position)
  }

  /** The piece `_get_movable_piece` returns for the list, or its error. */
  function Movable(g: Grid, req: Request, ps: seq<Piece>): Result<Piece>
    requires IsGrid(g) && Standing(ps)
    reads Occupants(g), set p | p in ps
  {
    var pick := Pick(req, Positions(ps), PieceResults(g, ps, true));
    if pick.Ok? then Ok(ps[pick.value]) else Err(pick.error)
  }

  // ----------------------------------------------------------- the class

  /** `Game`. */
  class Game {
    /** `board`: set once, by the constructor. */
    const board: Board
    var moves: map<int, seq<string>>
    var playerTurn: Color
    var currentTurn: int
    /** `white_possible_pawn_enp` / `black_possible_pawn_enp`. */
    var whitePossiblePawnEnp: Piece?
    var blackPossiblePawnEnp: Piece?

    function Bookkeeping(): Log
      reads this
    {
      Log(moves, playerTurn, currentTurn)
    }

    /** The pawn tracked for a colour. */
    function Tracked(c: Color): Piece?
      reads this
    {
      if c == White then whitePossiblePawnEnp else blackPossiblePawnEnp
    }

    /** `Game()`: the initial board, an empty log, White to move on turn 1, no pawn tracked. */
    constructor ()
      ensures Bookkeeping() == NewLog && whitePossiblePawnEnp == null && blackPossiblePawnEnp == null
      ensures fresh(board) && board.isInitialBoardSetUp && board.Stage(6)
      ensures forall r, c :: 0 <= r < 8 && 0 <= c < 8 ==> CellOf(board.grid[r][c]) == ChessBoard.InitialCell(r, c)
    {
      board := new Board();
      moves := map[];
      playerTurn := White;
      currentTurn := 1;
      whitePossiblePawnEnp := null;
      blackPossiblePawnEnp := null;
    }

    /** `_manage_game_state` with the turn passed to the other colour. */
    method ManageGameState(move: string)
      modifies this
      ensures Bookkeeping() == Logged(old(Bookkeeping()), move)
      ensures whitePossiblePawnEnp == old(whitePossiblePawnEnp) && blackPossiblePawnEnp == old(blackPossiblePawnEnp)
    {
      if currentTurn !in moves {
        moves := moves[currentTurn := []];
      }
      playerTurn := playerTurn.Opposite();
      moves := moves[currentTurn := moves[currentTurn] + [move]];
      if playerTurn == White {
        currentTurn := currentTurn + 1;
      }
    }

    /**
     * `_clean_en_passant_state`: the mover's tracked pawn, if any, may no
     * longer be taken en passant and is no longer tracked.
     */
    method CleanEnPassantState()
      requires Playable()
      modifies this, Tracked(playerTurn)
      ensures Playable()
      ensures Tracked(playerTurn) == null
      ensures Tracked(playerTurn.Opposite()) == old(Tracked(playerTurn.Opposite()))
      ensures var t := old(Tracked(playerTurn));
              t != null ==> !t.canBeCapturedEnPassant && t.Snapshot() == old(t.Snapshot()) &&
                            t.capturedBy == old(t.capturedBy)
      ensures Bookkeeping() == old(Bookkeeping())
    {
      var pawn := Tracked(playerTurn);
      if pawn != null {
        pawn.canBeCapturedEnPassant := false;
        if playerTurn == White {
          whitePossiblePawnEnp := null;
        } else {
          blackPossiblePawnEnp := null;
        }
      }
    }

    /**
     * `_manage_en_passant_pawns`: the mover's tracked pawn is cleared; then
     * a pawn on its first move to a square on rank 4 or 5 becomes the
     * mover's tracked pawn and may be taken en passant. An empty square
     * name is an IndexError once the old pawn is cleared.
     */
    method ManageEnPassantPawns(piece: Piece, kind: Kind, square: string) returns (r: Result<()>)
      requires Playable()
      modifies this, Tracked(playerTurn), piece
      ensures Playable()
      ensures r.Err? <==> kind == Pawn && square == []
      ensures r.Err? ==> r.error == IndexError
      ensures var flagged := kind == Pawn && square != [] && square[|square| - 1] in "45" && old(piece.firstMove);
              Tracked(playerTurn) == (if flagged then piece else null) &&
              (flagged ==> piece.canBeCapturedEnPassant) &&
              (!flagged && piece != old(Tracked(playerTurn)) ==>
                 piece.canBeCapturedEnPassant == old(piece.canBeCapturedEnPassant))
      ensures var t := old(Tracked(playerTurn));
              t != null && t != piece ==> !t.canBeCapturedEnPassant
      ensures var t := old(Tracked(playerTurn));
              t == piece && !(kind == Pawn && square != [] && square[|square| - 1] in "45" && old(piece.firstMove)) ==>
                !piece.canBeCapturedEnPassant
      ensures Tracked(playerTurn.Opposite()) == old(Tracked(playerTurn.Opposite()))
      ensures piece.Snapshot() == old(piece.Snapshot()) && piece.capturedBy == old(piece.capturedBy)
      ensures piece.position == old(piece.position)
      ensures Bookkeeping() == old(Bookkeeping())
    {
      CleanEnPassantState();
      if kind == Pawn {
        if square == [] {
          return Err(IndexError);
        }
        if square[|square| - 1] in "45" && piece.firstMove {
          if playerTurn == White {
            whitePossiblePawnEnp := piece;
          } else {
            blackPossiblePawnEnp := piece;
          }
          piece.canBeCapturedEnPassant := true;
        }
      }
      r := Ok(());
    }

    /**
     * `_get_movable_piece`: the first piece of the list that passes the
     * file and row filters and whose square names include the target, the
     * error of a piece that cannot list its moves, or a ValueError.
     */
    method GetMovablePiece(req: Request, pieces: seq<Piece>) returns (r: Result<Piece>)
      requires IsGrid(board.grid) && Standing(pieces) && OnItsBoard(pieces, board)
      ensures r == old(Movable(board.grid, req, pieces))
      ensures r.Ok? ==> r.value in pieces
    {
      var g := board.grid;
      ghost var at := Positions(pieces);
      ghost var answers := PieceResults(g, pieces, true);
      assert AllOnBoard(at);
      assert forall o :: o in Occupants(g) ==> allocated(o);
      var i := 0;
      assert at[0..] == at && answers[0..] == answers;
      while i < |pieces|
        invariant 0 <= i <= |pieces|
        invariant Pick(req, at, answers) == Shifted(Pick(req, at[i..], answers[i..]), i)
      {
        var piece := pieces[i];
        assert piece in pieces && at[i] == piece.position;
        PickStep(req, at, answers, i);
        var position := piece.position;
        if Passes(req, position) {
          var moves := CalculateLegalMoves(piece, true);
          assert moves == answers[i];
          if moves.Err? {
            return Err(moves.error);
          }
          if Name(req.square) in moves.value {
            return Ok(piece);
          }
        }
        i := i + 1;
      }
      r := Err(ValueError);
    }

    /**
     * `move_piece` with the attributes it reads given their evident meaning:
     * the move is decoded, the piece that makes it is chosen among the
     * mover's pieces of its kind, the en-passant bookkeeping is updated,
     * the piece moves with `move_to` (a refusal is a ValueError; the legacy
     * pieces have no `castle`), its story records the move, and the log
     * records it. A move that fails leaves the log as it was.
     */
    method MovePiece(move: string) returns (r: Result<()>)
      requires Playable()
      modifies this, board, Tracked(playerTurn), set p | p in Flatten(board.PiecesOnBoard(playerTurn))
      ensures Playable()
      ensures r.Ok? ==> LegacyMove.Parse(move, old(playerTurn)).Ok?
      ensures r.Ok? ==> Bookkeeping() == Logged(old(Bookkeeping()), move)
      ensures r.Err? ==> Bookkeeping() == old(Bookkeeping())
    {
      var decoded := LegacyMove.Parse(move, playerTurn);
      if decoded.Err? {
        return Err(decoded.error);
      }
      r := MoveRequest(RequestOf(move, decoded.value));
    }

    /** `move_piece` once the move is decoded: the mover's list of the kind, the piece, then the rest. */
    method MoveRequest(req: Request) returns (r: Result<()>)
      requires Playable()
      modifies this, board, Tracked(playerTurn), set p | p in Flatten(board.PiecesOnBoard(playerTurn))
      ensures Playable()
      ensures r.Ok? ==> Bookkeeping() == Logged(old(Bookkeeping()), req.move)
      ensures r.Err? ==> Bookkeeping() == old(Bookkeeping())
    {
      var groups := board.PiecesOnBoard(playerTurn);
      var list := KindList(groups, req.kind);
      if list.None? {
        return Err(KeyError);
      }
      GroupStanding(groups, req.kind, list.value);
      SidesAllocated(board);
      assert forall o :: o in Occupants(board.grid) ==> allocated(o);
      var piece := GetMovablePiece(req, list.value);
      if piece.Err? {
        return Err(piece.error);
      }
      r := Play(req, piece.value);
    }

    /** The steps after the piece is chosen: en passant, the move itself, the story and the log. */
    method Play(req: Request, piece: Piece) returns (r: Result<()>)
      requires Playable() && piece.board == board && OnBoard(piece.position.0, piece.position.1)
      modifies this, board, Tracked(playerTurn), piece
      ensures Playable()
      ensures r.Ok? ==> Bookkeeping() == Logged(old(Bookkeeping()), req.move)
      ensures r.Err? ==> Bookkeeping() == old(Bookkeeping())
    {
      var enPassant := ManageEnPassantPawns(piece, req.kind, req.square);
      if enPassant.Err? {
        return Err(enPassant.error);
      }
      r := Advance(req, piece);
    }

    /** The part of `move_piece` after the en-passant bookkeeping: the move, the story, the log. */
    method Advance(req: Request, piece: Piece) returns (r: Result<()>)
      requires Playable() && piece.board == board && OnBoard(piece.position.0, piece.position.1)
      modifies this, board, piece
      ensures Playable()
      ensures r.Ok? ==> Bookkeeping() == Logged(old(Bookkeeping()), req.move)
      ensures r.Err? ==> Bookkeeping() == old(Bookkeeping())
    {
      if req.isCastling {
        return Err(AttributeError);
      }
      var moved := MovePieceTo(piece, req.square);
      if moved.Err? {
        return Err(moved.error);
      }
      RecordStory(piece);
      SidesAllocated(board);
      assert forall o :: o in Occupants(board.grid) ==> allocated(o);
      ManageGameState(req.move);
      r := Ok(());
    }

    /** `add_move_to_story` with the turn number and the square reached. */
    method RecordStory(piece: Piece)
      requires Playable() && OnBoard(piece.position.0, piece.position.1)
      modifies piece
      ensures Playable()
      ensures piece.Snapshot() == Recorded(old(piece.Snapshot()), currentTurn, piece.position)
    {
      ghost var white, black, g := Flatten(board.whitePieces), Flatten(board.blackPieces), board.grid;
      SidesAllocated(board);
      assert forall o :: o in Occupants(g) ==> allocated(o);
      piece.AddMoveToStory(currentTurn, piece.position);
      assert piece.position == old(piece.position);
      forall q: Piece | q in white + black
        ensures OnBoard(q.position.0, q.position.1)
      {
        if q != piece {
          assert q.position == old(q.position);
        }
      }
      forall r, c | 0 <= r < 8 && 0 <= c < 8 && g[r][c] != null
        ensures g[r][c].position == (r, c)
      {
        assert g[r][c] in Occupants(g);
        assert g[r][c].position == old(g[r][c].position);
      }
    }

    /** `_move_piece` off castling: `move_to` with the square's name, False being a ValueError. */
    method MovePieceTo(piece: Piece, square: string) returns (r: Result<()>)
      requires Playable() && piece.board == board && OnBoard(piece.position.0, piece.position.1)
      modifies board, piece
      ensures Playable()
      ensures Bookkeeping() == old(Bookkeeping())
      ensures OnBoard(piece.position.0, piece.position.1)
    {
      ghost var white, black := Flatten(board.whitePieces), Flatten(board.blackPieces);
      SidesAllocated(board);
      var done := MoveTo(piece, SquareCalled(square));
      forall q: Piece | q in white + black
        ensures OnBoard(q.position.0, q.position.1)
      {
        if q != piece {
          assert q.position == old(q.position);
        }
      }
      if done.Err? {
        return Err(done.error);
      }
      if !done.value {
        return Err(ValueError);
      }
      r := Ok(());
    }

    /**
     * What a move needs of the game: a consistent grid, and every piece of
     * either side standing on the board and belonging to it.
     */
    predicate Playable()
      reads board, Occupants(board.grid)
      reads set p | p in Flatten(board.whitePieces)
      reads set p | p in Flatten(board.blackPieces)
    {
      IsGrid(board.grid) && Consistent(board.grid) &&
      Standing(Flatten(board.whitePieces)) && OnItsBoard(Flatten(board.whitePieces), board) &&
      Standing(Flatten(board.blackPieces)) && OnItsBoard(Flatten(board.blackPieces), board)
    }
  }

  /** The pieces of both sides are objects of the heap. */
  lemma SidesAllocated(b: Board)
    ensures forall q :: q in Flatten(b.whitePieces) ==> allocated(q)
    ensures forall q :: q in Flatten(b.blackPieces) ==> allocated(q)
  {
    FlattenMembers(b.whitePieces);
    FlattenMembers(b.blackPieces);
  }

  /** The loop of `_get_movable_piece` moves on by one piece. */
  lemma PickStep(req: Request, at: seq<(int, int)>, answers: seq<Result<seq<Entry>>>, i: nat)
    requires |at| == |answers| && AllOnBoard(at) && i < |at|
    ensures AllOnBoard(at[i..]) && AllOnBoard(at[i + 1..])
    ensures Shifted(Pick(req, at[i..], answers[i..]), i) ==
              if !Passes(req, at[i]) then Shifted(Pick(req, at[i + 1..], answers[i + 1..]), i + 1)
              else if answers[i].Err? then Err(answers[i].error)
              else if Name(req.square) in answers[i].value then Ok(i)
              else Shifted(Pick(req, at[i + 1..], answers[i + 1..]), i + 1)
  {
    assert at[i..][1..] == at[i + 1..] && answers[i..][1..] == answers[i + 1..];
  }

  /** The list of one kind stands on the board when the whole side does. */
  lemma GroupStanding(groups: seq<Group>, k: Kind, ps: seq<Piece>)
    requires Standing(Flatten(groups)) && KindList(groups, k) == Some(ps)
    ensures forall p :: p in ps ==> p in Flatten(groups)
    ensures Standing(ps)
    ensures forall b: Board :: OnItsBoard(Flatten(groups), b) ==> OnItsBoard(ps, b)
  {
    FlattenMembers(groups);
    var i :| 0 <= i < |groups| && groups[i] == Group(k, ps);
    forall p | p in ps
      ensures p in Flatten(groups)
    {
      var j :| 0 <= j < |ps| && ps[j] == p;
      assert groups[i].pieces[j] == p;
    }
  }

  /**
   * `move_piece` as written: once the move decodes, `piece_move.piece_name`
   * is read off a `PieceMove` that has no such attribute, so every move
   * ends in an AttributeError before anything changes.
   */
  method MovePieceAsWritten(move: string, playerTurn: Color) returns (r: Result<()>)
    ensures r.Err?
    ensures LegacyMove.Parse(move, playerTurn).Err? ==> r.error == LegacyMove.Parse(move, playerTurn).error
    ensures LegacyMove.Parse(move, playerTurn).Ok? ==> r.error == AttributeError
  {
    var pieceMove := LegacyMove.PieceMove.New(move, playerTurn);
    if pieceMove.Err? {
      return Err(pieceMove.error);
    }
    r := Err(AttributeError);
  }
}
