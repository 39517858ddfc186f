/**
 * The bookkeeping half of `Game` (selene_chess_bot/game/game.py): whose turn
 * it is, the move log, the full-move counter, the fifty-move counter
 * (Article 9.3 of the FIDE Laws of Chess), the position-repetition table
 * (Article 9.2), the draw and termination flags, the game values and the
 * sufficient-material flags.
 *
 * The board and move legality are abstract here.  Everything the board
 * reports back after a move (was it a pawn move or a capture, is the king of
 * the side to move in check, can that side move, how many pieces each side
 * has, the Zobrist hash of the new position) reaches the model as an
 * `Aftermath` record.
 */
module GameState {
  import opened Python
  import opened Notation
  import Zobrist
  import Fen

  /** `current_board_hash`: the 8 bytes of the Zobrist hash. */
  type BoardHash = seq<Zobrist.Byte>

  /** A game value: 0, or the `float('inf')`/`float('-inf')` written on checkmate. */
  datatype Value = Finite(n: int) | PlusInfinity | MinusInfinity

  /** Python's `>` on such values. */
  predicate Above(a: Value, b: Value)
  {
    match a
    case PlusInfinity => !b.PlusInfinity?
    case MinusInfinity => false
    case Finite(x) => b.MinusInfinity? || (b.Finite? && x > b.n)
  }

  /** What the board reports once a move has been played on it. */
  datatype Aftermath = Aftermath(
    isPawnMove: bool,        // piece_move.piece_name == PAWN
    isCapture: bool,         // piece_move.is_capture
    kingInCheck: bool,       // is_in_check of the king of the side now to move
    hasLegalMoves: bool,     // get_legal_moves of that side is non-empty
    anyPieceCanMove: bool,   // _color_has_legal_moves(color, False)
    whitePieces: nat,        // board.n_white_pieces
    blackPieces: nat,        // board.n_black_pieces
    whiteKnight: bool, blackKnight: bool,   // get_piece(KNIGHT, color) is non-empty
    whiteBishop: bool, blackBishop: bool,   // get_piece(BISHOP, color) is non-empty
    hash: BoardHash)         // compute_game_state_hash of the new position
  {
    function Pieces(c: Color): nat { if c == White then whitePieces else blackPieces }
    predicate HasKnight(c: Color) { if c == White then whiteKnight else blackKnight }
    predicate HasBishop(c: Color) { if c == White then whiteBishop else blackBishop }
    predicate IsCheckmate() { kingInCheck && !hasLegalMoves }
    /** A lone king, or a king and one knight or one bishop. */
    predicate LacksMaterial(c: Color) { Pieces(c) == 1 || (Pieces(c) == 2 && (HasKnight(c) || HasBishop(c))) }
  }

  /** A dictionary keyed by the two colours, such as `game_values`. */
  datatype PerColor<T> = PerColor(white: T, black: T)
  {
    function Get(c: Color): T { if c == White then white else black }

    function Set(c: Color, v: T): (r: PerColor<T>)
      ensures r.Get(c) == v && r.Get(c.Opposite()) == Get(c.Opposite())
    {
      if c == White then this.(white := v) else this.(black := v)
    }
  }

  /** The bookkeeping fields of a `Game`, as one value. */
  datatype Book = Book(
    moves: map<int, seq<string>>,
    movesForFRule: int,
    currentTurn: int,
    playerTurn: Color,
    terminated: bool,
    drawn: bool,
    drawnReason: string,
    values: PerColor<Value>,
    sufficient: PerColor<bool>,
    boardStates: map<BoardHash, int>,
    currentHash: BoardHash)

  // ----------------------------------------------------------- the steps

  /** The state `Game.__init__` leaves: nothing played, no position recorded. */
  function NewBook(currentTurn: int, playerTurn: Color, hash: BoardHash): Book
  {
    Book(map[], 0, currentTurn, playerTurn, false, false, "",
         PerColor(Finite(0), Finite(0)),
         PerColor(true, true),
         map[], hash)
  }

  /** The `result` property: 0 for a draw, 1 when white's value is higher, -1 otherwise. */
  function GameResult(b: Book): int
  {
    if b.drawn then 0 else if Above(b.values.white, b.values.black) then 1 else -1
  }

  /** The reasons `_set_draw` records. */
  const FiftyMovesReason: string := "50 moves rule"
  const InsufficientMaterialReason: string := "insufficient material"
  const StalemateReason: string := "stalemate"
  const RepetitionReason: string := "threefold repetition"

  /**
   * What the draw and termination checks never touch: the log, the turn, the
   * repetition table, and both colours' entries in the dictionaries.
   */
  predicate Keeps(b: Book, r: Book)
  {
    r.moves == b.moves && r.currentTurn == b.currentTurn && r.playerTurn == b.playerTurn
    && r.boardStates == b.boardStates && r.currentHash == b.currentHash
  }

  /** `_set_draw`. */
  function WithDraw(b: Book, reason: string): (r: Book)
    ensures Keeps(b, r) && r.sufficient == b.sufficient && r.movesForFRule == b.movesForFRule
    ensures r.terminated && r.drawn && r.drawnReason == reason
  {
    b.(values := PerColor(Finite(0), Finite(0)),
       terminated := true, drawn := true, drawnReason := reason)
  }

  /** The fifty-move counter after a move: reset by a pawn move or a capture. */
  function HalfMoves(b: Book, a: Aftermath): int
  {
    if a.isPawnMove || a.isCapture then 0 else b.movesForFRule + 1
  }

  /** `_manage_fifty_moves_rule`: the new state and whether it drew the game. */
  function FiftyMoveRule(b: Book, a: Aftermath): (r: (Book, bool))
    ensures Keeps(b, r.0) && r.0.sufficient == b.sufficient
    ensures r.0.movesForFRule == HalfMoves(b, a)
    ensures r.1 <==> r.0.movesForFRule >= 100
  {
    var b1 := b.(movesForFRule := HalfMoves(b, a));
    if b1.movesForFRule >= 100 then (WithDraw(b1, FiftyMovesReason), true) else (b1, false)
  }

  /** `_manage_sufficient_material(color)`. */
  function MaterialCheck(b: Book, c: Color, a: Aftermath): (r: (Book, bool))
    ensures Keeps(b, r.0) && r.0.movesForFRule == b.movesForFRule
    ensures r.0 == b.(sufficient := b.sufficient.Set(c, r.1))
    ensures r.1 <==> b.sufficient.Get(c) && !a.LacksMaterial(c)
  {
    if !b.sufficient.Get(c) then (b, false)
    else if a.Pieces(c) == 1 then (b.(sufficient := b.sufficient.Set(c, false)), false)
    else if a.Pieces(c) == 2 && a.HasKnight(c) then (b.(sufficient := b.sufficient.Set(c, false)), false)
    else if a.Pieces(c) == 2 && a.HasBishop(c) then (b.(sufficient := b.sufficient.Set(c, false)), false)
    else (b, true)
  }

  /** `_manage_stalemate` for the king of the side to move. */
  function StalemateCheck(b: Book, a: Aftermath): (r: (Book, bool))
    ensures Keeps(b, r.0) && r.0.sufficient == b.sufficient && r.0.movesForFRule == b.movesForFRule
    ensures r.1 <==> !a.kingInCheck && a.Pieces(b.playerTurn) <= 8 && !a.anyPieceCanMove
    ensures r.0 == if r.1 then WithDraw(b, StalemateReason) else b
  {
    if !a.kingInCheck && a.Pieces(b.playerTurn) <= 8 && !a.anyPieceCanMove then
      (WithDraw(b, StalemateReason), true)
    else (b, false)
  }

  /**
   * `_manage_draw`: fifty moves, then material, then stalemate.  The counter
   * is updated, the fifty-move draw takes precedence, a side once found short
   * of mating material stays so, a lone king or king and minor piece is short
   * of it, and the insufficient-material draw needs both sides short.
   */
  function DrawCheck(b: Book, a: Aftermath): (r: (Book, bool))
    ensures Keeps(b, r.0)
    ensures r.0.movesForFRule == HalfMoves(b, a)
    ensures HalfMoves(b, a) >= 100 ==> r.1 && r.0.drawn && r.0.terminated && r.0.drawnReason == FiftyMovesReason
    ensures forall c :: !b.sufficient.Get(c) ==> !r.0.sufficient.Get(c)
    ensures HalfMoves(b, a) < 100 ==> forall c :: a.LacksMaterial(c) ==> !r.0.sufficient.Get(c)
    ensures r.0.drawnReason == InsufficientMaterialReason && b.drawnReason != InsufficientMaterialReason
            ==> !r.0.sufficient.white && !r.0.sufficient.black
    ensures r.0.drawn == (b.drawn || r.1) && (!r.1 ==> r.0.values == b.values)
  {
    var fifty := FiftyMoveRule(b, a);
    if fifty.1 then fifty
    else
      var b2 := MaterialCheck(fifty.0, White, a).0;
      var b3 := MaterialCheck(b2, Black, a).0;
      if !(b3.sufficient.white || b3.sufficient.black) then (WithDraw(b3, InsufficientMaterialReason), true)
      else StalemateCheck(b3, a)
  }

  /** The values written when the king of `loser` is checkmated. */
  function Checkmated(b: Book, loser: Color): (r: Book)
    ensures r.terminated && r.values.Get(loser.Opposite()) == PlusInfinity && r.values.Get(loser) == MinusInfinity
    ensures r == b.(values := r.values, terminated := true)
  {
    b.(values := b.values.Set(loser.Opposite(), PlusInfinity).Set(loser, MinusInfinity), terminated := true)
  }

  /** `_manage_game_termination`: the draw checks, then checkmate of the side to move. */
  function Terminate(b: Book, a: Aftermath): (r: Book)
    ensures Keeps(b, r)
    ensures var d := DrawCheck(b, a).0;
      r.movesForFRule == d.movesForFRule && r.sufficient == d.sufficient
      && r.drawn == d.drawn && r.drawnReason == d.drawnReason
      && (r.terminated <==> d.terminated || a.IsCheckmate())
  {
    var b1 := DrawCheck(b, a).0;
    if a.IsCheckmate() then Checkmated(b1, b.playerTurn) else b1
  }

  /** The number of times `h` is in the repetition table. */
  function Count(states: map<BoardHash, int>, h: BoardHash): int
  {
    if h in states then states[h] else 0
  }

  /** `_set_current_game_state_hash`: count the position, draw on its third count. */
  function RecordPosition(b: Book, h: BoardHash): (r: Book)
    ensures r.boardStates == b.boardStates[h := Count(b.boardStates, h) + 1] && r.currentHash == h
    ensures r.moves == b.moves && r.currentTurn == b.currentTurn && r.playerTurn == b.playerTurn
    ensures r.movesForFRule == b.movesForFRule && r.sufficient == b.sufficient
    ensures b.drawn ==> r.drawn
    ensures r.drawnReason == if Count(b.boardStates, h) + 1 >= 3 then RepetitionReason else b.drawnReason
    ensures Count(b.boardStates, h) + 1 >= 3 ==> r.drawn && r.terminated
  {
    if h in b.boardStates then
      var b1 := b.(currentHash := h, boardStates := b.boardStates[h := b.boardStates[h] + 1]);
      if b.boardStates[h] + 1 >= 3 then WithDraw(b1, RepetitionReason) else b1
    else b.(currentHash := h, boardStates := b.boardStates[h := 1])
  }

  /** The log of turn `t`, empty when the turn has no entry yet. */
  function Log(moves: map<int, seq<string>>, t: int): seq<string>
  {
    if t in moves then moves[t] else []
  }

  /** The first half of `_manage_game_state`: pass the turn and log the move. */
  function Logged(b: Book, move: string): (r: Book)
    ensures r.playerTurn == b.playerTurn.Opposite()
    ensures r.moves == b.moves[b.currentTurn := Log(b.moves, b.currentTurn) + [move]]
    ensures r == b.(playerTurn := r.playerTurn, moves := r.moves)
  {
    b.(playerTurn := b.playerTurn.Opposite(),
       moves := b.moves[b.currentTurn := Log(b.moves, b.currentTurn) + [move]])
  }

  /** A new full move starts when white is to move again. */
  function NextTurn(b: Book): (r: Book)
    ensures r.currentTurn == if b.playerTurn == White then b.currentTurn + 1 else b.currentTurn
    ensures r == b.(currentTurn := r.currentTurn)
  {
    if b.playerTurn == White then b.(currentTurn := b.currentTurn + 1) else b
  }

  /**
   * `_manage_game_state`: the turn passes, the move is logged, the draw and
   * mate checks run, the full-move counter advances after black's move, and
   * the new position is counted.
   */
  function AfterMove(b: Book, move: string, a: Aftermath): (r: Book)
    ensures r.playerTurn == b.playerTurn.Opposite()
    ensures r.moves == b.moves[b.currentTurn := Log(b.moves, b.currentTurn) + [move]]
    ensures r.currentTurn == if b.playerTurn == Black then b.currentTurn + 1 else b.currentTurn
    ensures r.boardStates == b.boardStates[a.hash := Count(b.boardStates, a.hash) + 1] && r.currentHash == a.hash
    ensures Count(b.boardStates, a.hash) + 1 >= 3 ==> r.drawn && r.terminated
  {
    var l := Logged(b, move);
    var e := Terminate(l, a);
    var n := NextTurn(e);
    RecordPosition(n, a.hash)
  }

  /**
   * What the termination checks of `_manage_game_state` leave in a move's
   * result: the counter, the material flags, the draw flag and its reason,
   * the last overridden by a threefold repetition.
   */
  lemma Outcome(b: Book, move: string, a: Aftermath)
    ensures var r := AfterMove(b, move, a); var e := Terminate(Logged(b, move), a);
      r.movesForFRule == e.movesForFRule && r.sufficient == e.sufficient && (e.drawn ==> r.drawn)
      && r.drawnReason == (if Count(b.boardStates, a.hash) + 1 >= 3 then RepetitionReason else e.drawnReason)
  {
  }

  /**
   * `move_piece` once the board has played (or refused) the move: `played`
   * is the board's report, or the exception the move raised.
   */
  function PlayMove(b: Book, move: string, played: Result<Aftermath>): (Book, Result<bool>)
  {
    if b.terminated then (b, Ok(false))
    else if played.Err? then (b, Err(played.error))
    else (AfterMove(b, move, played.value), Ok(true))
  }

  // ------------------------------------------- what a move does, proved

  /** A white move and the black reply fill one entry of the log and advance the counter by one. */
  lemma FullMove(b: Book, m1: string, a1: Aftermath, m2: string, a2: Aftermath)
    requires b.playerTurn == White
    ensures var r := AfterMove(AfterMove(b, m1, a1), m2, a2);
      && r.playerTurn == White
      && r.currentTurn == b.currentTurn + 1
      && r.moves == b.moves[b.currentTurn := Log(b.moves, b.currentTurn) + [m1, m2]]
  {
    var t := b.currentTurn;
    var once := Log(b.moves, t) + [m1];
    var twice := once + [m2];
    var b1 := AfterMove(b, m1, a1);
    assert b1.currentTurn == t && b1.playerTurn == Black;
    assert b1.moves == b.moves[t := once];
    assert Log(b1.moves, t) == once;
    var r := AfterMove(b1, m2, a2);
    assert r.currentTurn == t + 1 && r.playerTurn == White;
    assert r.moves == b1.moves[t := twice];
    assert b.moves[t := once][t := twice] == b.moves[t := twice];
    assert twice == Log(b.moves, t) + [m1, m2];
  }

  /**
   * The fifty-move rule (Article 9.3 of the FIDE Laws of Chess) as a move
   * applies it: the counter is reset by a pawn move or a capture and grows
   * by one otherwise, and reaching 100 draws the game, under the fifty-move
   * reason unless the same move also completed a threefold repetition.
   */
  lemma FiftyMoveCounter(b: Book, move: string, a: Aftermath)
    ensures AfterMove(b, move, a).movesForFRule == HalfMoves(b, a)
    ensures HalfMoves(b, a) >= 100 ==> AfterMove(b, move, a).drawn && AfterMove(b, move, a).terminated
    ensures HalfMoves(b, a) >= 100 && Count(b.boardStates, a.hash) < 2
            ==> AfterMove(b, move, a).drawnReason == FiftyMovesReason
  {
    Outcome(b, move, a);
    var l := Logged(b, move);
    assert HalfMoves(l, a) == HalfMoves(b, a);
  }

  /** Once a side is found short of mating material it stays so, whatever is played. */
  lemma {:induction false} MaterialNeverReturns(b: Book, steps: seq<Step>, c: Color)
    requires !b.sufficient.Get(c)
    ensures !Play(b, steps).sufficient.Get(c)
    decreases |steps|
  {
    if steps != [] {
      Outcome(b, steps[0].move, steps[0].after);
      var l := Logged(b, steps[0].move);
      assert !l.sufficient.Get(c);
      MaterialNeverReturns(AfterMove(b, steps[0].move, steps[0].after), steps[1..], c);
    }
  }

  /**
   * The insufficient-material draw of a move needs both sides short of
   * mating material, and a lone king or a king with a single minor piece is
   * always short of it.
   */
  lemma InsufficientMaterial(b: Book, move: string, a: Aftermath, c: Color)
    ensures b.drawnReason != InsufficientMaterialReason && AfterMove(b, move, a).drawnReason == InsufficientMaterialReason
            ==> !AfterMove(b, move, a).sufficient.white && !AfterMove(b, move, a).sufficient.black
    ensures HalfMoves(b, a) < 100 && a.LacksMaterial(c) ==> !AfterMove(b, move, a).sufficient.Get(c)
  {
    Outcome(b, move, a);
    var l := Logged(b, move);
    assert HalfMoves(l, a) == HalfMoves(b, a);
    assert InsufficientMaterialReason != RepetitionReason;
  }

  /** A finished game refuses the move and keeps its state; an error leaves the state alone. */
  lemma FinishedGameRefuses(b: Book, move: string, played: Result<Aftermath>)
    ensures b.terminated ==> PlayMove(b, move, played) == (b, Ok(false))
    ensures !b.terminated && played.Err? ==> PlayMove(b, move, played) == (b, Err(played.error))
    ensures !b.terminated && played.Ok? ==> PlayMove(b, move, played).1 == Ok(true)
  {
  }

  /** `_set_draw` zeroes both values, so `result` reports the draw. */
  lemma DrawScoresZero(b: Book, reason: string)
    ensures GameResult(WithDraw(b, reason)) == 0
    ensures WithDraw(b, reason).values.white == Finite(0) && WithDraw(b, reason).values.black == Finite(0)
  {
  }

  /** When no draw rule fired, checkmating the side to move makes the other side the winner. */
  lemma CheckmateWins(b: Book, a: Aftermath)
    requires !b.drawn && a.IsCheckmate() && !DrawCheck(b, a).1
    ensures Terminate(b, a).terminated
    ensures GameResult(Terminate(b, a)) == PlayerValue(b.playerTurn.Opposite())
  {
    var fifty := FiftyMoveRule(b, a);
    assert !fifty.0.drawn;
    var b2 := MaterialCheck(fifty.0, White, a).0;
    var b3 := MaterialCheck(b2, Black, a).0;
    assert !DrawCheck(b, a).0.drawn;
  }

  // ---------------------------------------------------- game histories

  /** One accepted move and what the board reported after it. */
  datatype Step = Step(move: string, after: Aftermath)

  /** The bookkeeping after a run of accepted moves. */
  function Play(b: Book, steps: seq<Step>): (r: Book)
    decreases |steps|
  {
    if steps == [] then b else Play(AfterMove(b, steps[0].move, steps[0].after), steps[1..])
  }

  /** The positions the moves lead to, in order. */
  function Hashes(steps: seq<Step>): (hs: seq<BoardHash>)
    ensures |hs| == |steps|
    ensures forall i :: 0 <= i < |steps| ==> hs[i] == steps[i].after.hash
  {
    if steps == [] then [] else [steps[0].after.hash] + Hashes(steps[1..])
  }

  /**
   * The repetition table counts every position reached by a move: after any
   * run of moves, the count of `h` grew by the number of moves that led to `h`.
   */
  lemma {:induction false} PlayCounts(b: Book, steps: seq<Step>, h: BoardHash)
    ensures Count(Play(b, steps).boardStates, h) == Count(b.boardStates, h) + multiset(Hashes(steps))[h]
    decreases |steps|
  {
    if steps != [] {
      var b1 := AfterMove(b, steps[0].move, steps[0].after);
      PlayCounts(b1, steps[1..], h);
      assert Hashes(steps) == [steps[0].after.hash] + Hashes(steps[1..]);
    }
  }

  /** Running `first` and then `rest` is running their concatenation. */
  lemma {:induction false} PlayAppend(b: Book, first: seq<Step>, rest: seq<Step>)
    ensures Play(b, first + rest) == Play(Play(b, first), rest)
    decreases |first|
  {
    if first != [] {
      var b1 := AfterMove(b, first[0].move, first[0].after);
      assert (first + rest)[0] == first[0];
      assert (first + rest)[1..] == first[1..] + rest;
      assert Play(b, first + rest) == Play(b1, first[1..] + rest);
      assert Play(b, first) == Play(b1, first[1..]);
      PlayAppend(b1, first[1..], rest);
    } else {
      assert first + rest == rest;
    }
  }

  // ------------------------------------------- checkmate on the last count

  /**
   * As written, `_manage_game_termination` runs the draw checks before the
   * mate test: a quiet move that mates as the hundredth half-move without a
   * pawn move or a capture leaves the game marked drawn, and `result` scores
   * it 0 although the mated side has lost.
   */
  lemma MateOnHundredthHalfMove(b: Book, a: Aftermath)
    requires b.movesForFRule == 99 && !a.isPawnMove && !a.isCapture && a.IsCheckmate()
    ensures Terminate(b, a).drawn && Terminate(b, a).drawnReason == FiftyMovesReason
    ensures GameResult(Terminate(b, a)) == 0
  {
  }

  /**
   * Termination with checkmate taking precedence over the draw rules
   * (Article 5.1.1 of the FIDE Laws of Chess: checkmate ends the game
   * immediately); the counter is still brought up to date.
   */
  function TerminateFixed(b: Book, a: Aftermath): (r: Book)
    ensures !a.IsCheckmate() ==> r == Terminate(b, a)
    ensures a.IsCheckmate() ==> r.terminated && r.drawn == b.drawn && r.movesForFRule == HalfMoves(b, a)
  {
    if a.IsCheckmate() then Checkmated(b.(movesForFRule := HalfMoves(b, a)), b.playerTurn)
    else Terminate(b, a)
  }

  /** With the fix, a mate in an undrawn game is a win for the mating side, whatever the counter says. */
  lemma MateStands(b: Book, a: Aftermath)
    requires !b.drawn && a.IsCheckmate()
    ensures TerminateFixed(b, a).terminated && !TerminateFixed(b, a).drawn
    ensures GameResult(TerminateFixed(b, a)) == PlayerValue(b.playerTurn.Opposite())
  {
    var r := TerminateFixed(b, a);
    if b.playerTurn == White {
      assert r.values.white == MinusInfinity && r.values.black == PlusInfinity;
    } else {
      assert r.values.white == PlusInfinity && r.values.black == MinusInfinity;
    }
  }

  // ---------------------------------------- the starting position's count

  /** A move that is neither a pawn move nor a capture, gives no check and leaves both sides mating material. */
  predicate QuietMove(a: Aftermath)
  {
    !a.isPawnMove && !a.isCapture && !a.kingInCheck && a.anyPieceCanMove
    && !a.LacksMaterial(White) && !a.LacksMaterial(Black)
  }

  /** A game still in progress, with both sides holding mating material. */
  predicate InPlay(b: Book)
  {
    !b.drawn && !b.terminated && b.sufficient == PerColor(true, true)
  }

  /** A quiet move that does not reach a position for the third time keeps the game in progress. */
  lemma QuietStep(b: Book, move: string, a: Aftermath)
    requires InPlay(b) && b.movesForFRule < 99 && QuietMove(a) && Count(b.boardStates, a.hash) < 2
    ensures InPlay(AfterMove(b, move, a)) && AfterMove(b, move, a).movesForFRule == b.movesForFRule + 1
  {
    Outcome(b, move, a);
    var l := Logged(b, move);
    assert InPlay(l) && l.movesForFRule == b.movesForFRule;
    var d := DrawCheck(l, a);
    assert !FiftyMoveRule(l, a).1;
    assert MaterialCheck(FiftyMoveRule(l, a).0, White, a).1;
    assert !d.1;
    assert InPlay(Terminate(l, a));
  }

  /**
   * A run of quiet moves in which no position, counting what the table
   * already holds, is reached three times leaves the game in progress.
   */
  lemma {:induction false} QuietPlay(b: Book, steps: seq<Step>)
    requires InPlay(b) && b.movesForFRule + |steps| < 100
    requires forall i :: 0 <= i < |steps| ==> QuietMove(steps[i].after)
    requires forall h :: Count(b.boardStates, h) + multiset(Hashes(steps))[h] <= 2
    ensures InPlay(Play(b, steps))
    decreases |steps|
  {
    if steps != [] {
      var s := steps[0];
      var b1 := AfterMove(b, s.move, s.after);
      CountsAfterStep(b.boardStates, steps);
      QuietStep(b, s.move, s.after);
      assert forall i :: 0 <= i < |steps[1..]| ==> QuietMove(steps[1..][i].after);
      QuietPlay(b1, steps[1..]);
    }
  }

  /** One move moves one occurrence of its position from the moves to come into the table. */
  lemma CountsAfterStep(states: map<BoardHash, int>, steps: seq<Step>)
    requires steps != []
    requires forall h :: Count(states, h) + multiset(Hashes(steps))[h] <= 2
    ensures Count(states, steps[0].after.hash) < 2
    ensures var next := states[steps[0].after.hash := Count(states, steps[0].after.hash) + 1];
      forall h :: Count(next, h) + multiset(Hashes(steps[1..]))[h] <= 2
  {
    var x := steps[0].after.hash;
    assert Hashes(steps) == [x] + Hashes(steps[1..]);
    assert Count(states, x) + multiset(Hashes(steps))[x] <= 2;
    var next := states[x := Count(states, x) + 1];
    forall h
      ensures Count(next, h) + multiset(Hashes(steps[1..]))[h] <= 2
    {
      assert Count(states, h) + multiset(Hashes(steps))[h] <= 2;
    }
  }

  /** A quiet move reaching position `h`. */
  function Quiet(h: BoardHash): Aftermath
  {
    Aftermath(false, false, false, true, true, 16, 16, true, true, true, true, h)
  }

  /** Nf3 Nf6 Ng1 Ng8 from the position `h0`, through `h1`, `h2`, `h3` and back. */
  function KnightsOutAndBack(h0: BoardHash, h1: BoardHash, h2: BoardHash, h3: BoardHash): (r: seq<Step>)
    ensures Hashes(r) == [h1, h2, h3, h0]
    ensures forall i :: 0 <= i < |r| ==> QuietMove(r[i].after)
  {
    [Step("Nf3", Quiet(h1)), Step("Nf6", Quiet(h2)), Step("Ng1", Quiet(h3)), Step("Ng8", Quiet(h0))]
  }

  /** The positions of a concatenation of moves. */
  lemma {:induction false} HashesAppend(first: seq<Step>, rest: seq<Step>)
    ensures Hashes(first + rest) == Hashes(first) + Hashes(rest)
    decreases |first|
  {
    if first == [] {
      assert first + rest == rest;
    } else {
      assert (first + rest)[1..] == first[1..] + rest;
      HashesAppend(first[1..], rest);
    }
  }

  /** 1. Nf3 Nf6 2. Ng1 Ng8 3. Nf3 Nf6 4. Ng1 Ng8. */
  function KnightShuffle(h0: BoardHash, h1: BoardHash, h2: BoardHash, h3: BoardHash): (r: seq<Step>)
    ensures Hashes(r) == [h1, h2, h3, h0] + [h1, h2, h3, h0]
    ensures forall i :: 0 <= i < |r| ==> QuietMove(r[i].after)
  {
    var round := KnightsOutAndBack(h0, h1, h2, h3);
    HashesAppend(round, round);
    round + round
  }

  /**
   * As written, `__init__` leaves the repetition table empty, so the starting
   * position is not counted: after the knight shuffle it has occurred three
   * times (Article 9.2 of the FIDE Laws of Chess) but the table holds 2 and
   * the game goes on.
   */
  lemma KnightShuffleMissed(h0: BoardHash, h1: BoardHash, h2: BoardHash, h3: BoardHash)
    requires h0 != h1 && h0 != h2 && h0 != h3 && h1 != h2 && h1 != h3 && h2 != h3
    ensures var r := Play(NewBook(1, White, h0), KnightShuffle(h0, h1, h2, h3));
      !r.drawn && Count(r.boardStates, h0) == 2
  {
    var b := NewBook(1, White, h0);
    var steps := KnightShuffle(h0, h1, h2, h3);
    assert forall h :: Count(b.boardStates, h) + multiset(Hashes(steps))[h] <= 2 by {
      forall h
        ensures Count(b.boardStates, h) + multiset(Hashes(steps))[h] <= 2
      {
        ShuffleCounts(h0, h1, h2, h3, h);
      }
    }
    QuietPlay(b, steps);
    assert Count(Play(b, steps).boardStates, h0) == 2 by {
      PlayCounts(b, steps, h0);
      ShuffleCounts(h0, h1, h2, h3, h0);
    }
  }

  /** Each of the four distinct positions is reached twice by the knight shuffle. */
  lemma ShuffleCounts(h0: BoardHash, h1: BoardHash, h2: BoardHash, h3: BoardHash, h: BoardHash)
    requires h0 != h1 && h0 != h2 && h0 != h3 && h1 != h2 && h1 != h3 && h2 != h3
    ensures multiset([h1, h2, h3, h0] + [h1, h2, h3, h0])[h] <= 2
    ensures multiset([h1, h2, h3, h0] + [h1, h2, h3, h0])[h0] == 2
  {
    var round := [h1, h2, h3, h0];
    assert multiset(round)[h] <= 1;
    assert multiset(round)[h0] == 1;
  }

  /** `__init__` with the starting position counted once in the repetition table. */
  function NewBookFixed(currentTurn: int, playerTurn: Color, hash: BoardHash): (r: Book)
    ensures r == NewBook(currentTurn, playerTurn, hash).(boardStates := map[hash := 1])
    ensures forall h :: Count(r.boardStates, h) == multiset([hash])[h]
  {
    NewBook(currentTurn, playerTurn, hash).(boardStates := map[hash := 1])
  }

  /** Every count of three or more in the table has drawn the game. */
  ghost predicate RepetitionsDrawn(b: Book)
  {
    forall h :: Count(b.boardStates, h) >= 3 ==> b.drawn
  }

  /** A move keeps every third repetition drawn. */
  lemma RepetitionsStayDrawn(b: Book, move: string, a: Aftermath)
    requires RepetitionsDrawn(b)
    ensures RepetitionsDrawn(AfterMove(b, move, a))
  {
    var r := AfterMove(b, move, a);
    forall h | Count(r.boardStates, h) >= 3
      ensures r.drawn
    {
      if h != a.hash {
        Outcome(b, move, a);
        assert Count(b.boardStates, h) >= 3;
        assert Logged(b, move).drawn;
      }
    }
  }

  /** Once the counts of `h`, in the table and still to come, reach three, the game ends drawn. */
  lemma {:induction false} RepetitionDraws(b: Book, steps: seq<Step>, h: BoardHash)
    requires RepetitionsDrawn(b) && Count(b.boardStates, h) + multiset(Hashes(steps))[h] >= 3
    ensures Play(b, steps).drawn
    decreases |steps|
  {
    if steps != [] {
      var s := steps[0];
      assert Hashes(steps) == [s.after.hash] + Hashes(steps[1..]);
      RepetitionsStayDrawn(b, s.move, s.after);
      RepetitionDraws(AfterMove(b, s.move, s.after), steps[1..], h);
    }
  }

  /**
   * With the starting position counted, any position that occurs three
   * times in the game, the starting one included, draws it.
   */
  lemma ThreefoldDraws(currentTurn: int, playerTurn: Color, h0: BoardHash, steps: seq<Step>, h: BoardHash)
    requires multiset([h0] + Hashes(steps))[h] >= 3
    ensures Play(NewBookFixed(currentTurn, playerTurn, h0), steps).drawn
  {
    var b := NewBookFixed(currentTurn, playerTurn, h0);
    assert Count(b.boardStates, h) == multiset([h0])[h];
    RepetitionDraws(b, steps, h);
  }

  /** In particular the knight shuffle is drawn by the fixed bookkeeping. */
  lemma KnightShuffleDrawn(h0: BoardHash, h1: BoardHash, h2: BoardHash, h3: BoardHash)
    ensures Play(NewBookFixed(1, White, h0), KnightShuffle(h0, h1, h2, h3)).drawn
  {
    var round := [h1, h2, h3, h0];
    assert round[3] == h0;
    RoundTrips(h0, round, Hashes(KnightShuffle(h0, h1, h2, h3)));
    ThreefoldDraws(1, White, h0, KnightShuffle(h0, h1, h2, h3), h0);
  }

  /** A position that two rounds of moves both pass through, with the start, occurs three times. */
  lemma RoundTrips(h0: BoardHash, round: seq<BoardHash>, hs: seq<BoardHash>)
    requires h0 in round && hs == round + round
    ensures multiset([h0] + hs)[h0] >= 3
  {
    assert multiset([h0] + hs) == multiset([h0]) + multiset(round) + multiset(round);
  }

  // ------------------------------------------------------ the Game class

  /** `Game`, restricted to its bookkeeping fields. */
  class Game {
    var moves: map<int, seq<string>>
    var movesForFRule: int
    var currentTurn: int
    var playerTurn: Color
    var isGameTerminated: bool
    var isGameDrawn: bool
    var gameDrawnReason: string
    var gameValues: PerColor<Value>
    var sufficientMaterial: PerColor<bool>
    var boardStates: map<BoardHash, int>
    var currentBoardHash: BoardHash

    function Snapshot(): Book
      reads this
    {
      Book(moves, movesForFRule, currentTurn, playerTurn, isGameTerminated, isGameDrawn,
           gameDrawnReason, gameValues, sufficientMaterial, boardStates, currentBoardHash)
    }

    /** `__init__`; the hash of the starting position is computed by the board. */
    constructor (currentTurn: int, playerTurn: Color, hash: BoardHash)
      ensures Snapshot() == NewBook(currentTurn, playerTurn, hash)
    {
      this.moves := map[];
      this.movesForFRule := 0;
      this.currentTurn := currentTurn;
      this.playerTurn := playerTurn;
      this.isGameTerminated := false;
      this.gameDrawnReason := "";
      this.isGameDrawn := false;
      this.currentBoardHash := hash;
      this.boardStates := map[];
      this.gameValues := PerColor(Finite(0), Finite(0));
      this.sufficientMaterial := PerColor(true, true);
    }

    method SetDraw(reason: string)
      modifies this
      ensures Snapshot() == WithDraw(old(Snapshot()), reason)
    {
      gameValues := gameValues.Set(White, Finite(0));
      gameValues := gameValues.Set(Black, Finite(0));
      isGameTerminated := true;
      isGameDrawn := true;
      gameDrawnReason := reason;
    }

    method ManageFiftyMovesRule(a: Aftermath) returns (drawn: bool)
      modifies this
      ensures (Snapshot(), drawn) == FiftyMoveRule(old(Snapshot()), a)
    {
      if a.isPawnMove || a.isCapture {
        movesForFRule := 0;
      } else {
        movesForFRule := movesForFRule + 1;
      }
      if movesForFRule >= 100 {
        SetDraw(FiftyMovesReason);
        return true;
      }
      return false;
    }

    method ManageSufficientMaterial(color: Color, a: Aftermath) returns (sufficient: bool)
      modifies this
      ensures (Snapshot(), sufficient) == MaterialCheck(old(Snapshot()), color, a)
    {
      if !sufficientMaterial.Get(color) {
        return false;
      }
      var pieceNum := a.Pieces(color);
      if pieceNum == 1 {
        sufficientMaterial := sufficientMaterial.Set(color, false);
        return false;
      } else if pieceNum == 2 {
        if a.HasKnight(color) {
          sufficientMaterial := sufficientMaterial.Set(color, false);
          return false;
        }
        if a.HasBishop(color) {
          sufficientMaterial := sufficientMaterial.Set(color, false);
          return false;
        }
      }
      return true;
    }

    method ManageStalemate(a: Aftermath) returns (drawn: bool)
      modifies this
      ensures (Snapshot(), drawn) == StalemateCheck(old(Snapshot()), a)
    {
      if !a.kingInCheck && a.Pieces(playerTurn) <= 8 {
        if !a.anyPieceCanMove {
          SetDraw(StalemateReason);
          return true;
        }
      }
      return false;
    }

    method ManageDraw(a: Aftermath) returns (drawn: bool)
      modifies this
      ensures (Snapshot(), drawn) == DrawCheck(old(Snapshot()), a)
    {
      drawn := ManageFiftyMovesRule(a);
      if drawn {
        return;
      }
      var _ := ManageSufficientMaterial(White, a);
      var _ := ManageSufficientMaterial(Black, a);
      if !(sufficientMaterial.white || sufficientMaterial.black) {
        SetDraw(InsufficientMaterialReason);
        return true;
      }
      drawn := ManageStalemate(a);
    }

    method ManageGameTermination(a: Aftermath)
      modifies this
      ensures Snapshot() == Terminate(old(Snapshot()), a)
    {
      ghost var before := Snapshot();
      var _ := ManageDraw(a);
      assert Snapshot() == DrawCheck(before, a).0;
      if a.kingInCheck && !a.hasLegalMoves {
        gameValues := gameValues.Set(playerTurn.Opposite(), PlusInfinity);
        gameValues := gameValues.Set(playerTurn, MinusInfinity);
        isGameTerminated := true;
      }
    }

    method SetCurrentGameStateHash(h: BoardHash)
      modifies this
      ensures Snapshot() == RecordPosition(old(Snapshot()), h)
    {
      currentBoardHash := h;
      if h in boardStates {
        var st := boardStates[h];
        boardStates := boardStates[h := st + 1];
        if st + 1 >= 3 {
          SetDraw(RepetitionReason);
        }
      } else {
        boardStates := boardStates[h := 1];
      }
    }

    /** The opening lines of `_manage_game_state`. */
    method LogMove(move: string)
      modifies this
      ensures Snapshot() == Logged(old(Snapshot()), move)
    {
      if currentTurn !in moves {
        moves := moves[currentTurn := []];
      }
      playerTurn := playerTurn.Opposite();
      moves := moves[currentTurn := moves[currentTurn] + [move]];
    }

    method ManageGameState(move: string, a: Aftermath)
      modifies this
      ensures Snapshot() == AfterMove(old(Snapshot()), move, a)
    {
      LogMove(move);
      ghost var logged := Snapshot();
      ManageGameTermination(a);
      ghost var ended := Snapshot();
      assert ended == Terminate(logged, a);
      if playerTurn == White {
        currentTurn := currentTurn + 1;
      }
      assert Snapshot() == NextTurn(ended);
      SetCurrentGameStateHash(a.hash);
    }

    /** `move_piece`: a finished game refuses every move and changes nothing. */
    method MovePiece(move: string, played: Result<Aftermath>) returns (r: Result<bool>)
      modifies this
      ensures (Snapshot(), r) == PlayMove(old(Snapshot()), move, played)
    {
      if isGameTerminated {
        return Ok(false);
      }
      if played.Err? {
        return Err(played.error);
      }
      ManageGameState(move, played.value);
      return Ok(true);
    }
  }

  // ------------------------------------------------------ castling field

  /** The `castling_fen` property: the held rights as K, Q, k, q in that order, or "-". */
  function CastlingFen(rights: CastlingRights): (s: string)
    ensures s == "-" <==> !(rights.whiteKing || rights.whiteQueen || rights.blackKing || rights.blackQueen)
    ensures 1 <= |s| <= 4
  {
    var s := (if rights.whiteKing then "K" else "") + (if rights.whiteQueen then "Q" else "")
           + (if rights.blackKing then "k" else "") + (if rights.blackQueen then "q" else "");
    if s == "" then "-" else assert s[0] in "KQkq"; s
  }

  /** Position of a castling letter in "KQkq". */
  function LetterRank(ch: char): nat
  {
    if ch == 'K' then 0 else if ch == 'Q' then 1 else if ch == 'k' then 2 else 3
  }

  /** `parse_fen` reads back exactly the rights `castling_fen` wrote. */
  lemma CastlingFenRoundTrip(rights: CastlingRights)
    ensures Fen.CastlingFromFen(CastlingFen(rights)) == rights
  {
    var s := CastlingFen(rights);
    if rights.whiteKing { assert s[0] == 'K'; }
    if rights.whiteQueen {
      if rights.whiteKing { assert s[1] == 'Q'; } else { assert s[0] == 'Q'; }
    }
    assert 'K' in s ==> rights.whiteKing;
    assert 'Q' in s ==> rights.whiteQueen;
    assert 'k' in s ==> rights.blackKing;
    assert 'q' in s ==> rights.blackQueen;
    if rights.blackKing {
      assert s == (if rights.whiteKing then "K" else "") + (if rights.whiteQueen then "Q" else "")
                + "k" + (if rights.blackQueen then "q" else "");
    }
    if rights.blackQueen { assert s[|s| - 1] == 'q'; }
  }

  /** The letters appear in the order K, Q, k, q, each at most once. */
  lemma CastlingFenOrdered(rights: CastlingRights, i: nat, j: nat)
    requires i < j < |CastlingFen(rights)|
    ensures LetterRank(CastlingFen(rights)[i]) < LetterRank(CastlingFen(rights)[j])
  {
  }
}
