/**
 * `CheckDetector` (selene_chess_bot/game/check_detector.py): the legal moves
 * of a position, filtered down to those that give check.
 *
 * Parsing a FEN string into a `Game`, generating its legal moves and playing
 * a move on it are the chess rules proper; they reach this model through an
 * `Oracle`, one value per rule set, shared with the forced-mate search.
 */
module CheckDetection {
  import opened Python
  import opened Notation

  /** What a `Game` parsed from a FEN string reports. */
  datatype Oracle = Oracle(
    legalMoves: string -> seq<string>,       // get_legal_moves(show_as_list=True, show_in_algebraic=True)
    givesCheck: (string, string) -> bool,    // after move_piece, the other side's king has is_in_check set
    play: (string, string) -> string,        // create_current_fen() after move_piece
    turn: string -> Color,                   // player_turn
    wonBy: (string, Color) -> bool)          // terminated, not drawn, and game_values[color] > 0

  /** `xs` is `ys` with some elements left out, the rest in their order. */
  predicate IsSubsequence<T(==)>(xs: seq<T>, ys: seq<T>)
    decreases |ys|
  {
    if xs == [] then true
    else if ys == [] then false
    else if xs[0] == ys[0] then IsSubsequence(xs[1..], ys[1..])
    else IsSubsequence(xs, ys[1..])
  }

  /**
   * The moves among `moves` that give check from `fen`: a subsequence of
   * `moves` holding exactly the checking ones.
   */
  function Checks(o: Oracle, fen: string, moves: seq<string>): (r: seq<string>)
    ensures IsSubsequence(r, moves)
    ensures forall m :: m in r <==> m in moves && o.givesCheck(fen, m)
    ensures |r| <= |moves|
  {
    if moves == [] then []
    else
      var rest := Checks(o, fen, moves[1..]);
      assert forall m :: m in moves <==> m == moves[0] || m in moves[1..];
      if o.givesCheck(fen, moves[0]) then [moves[0]] + rest else rest
  }

  /** The checks of the position itself. */
  function ChecksOf(o: Oracle, fen: string): seq<string>
  {
    Checks(o, fen, o.legalMoves(fen))
  }

  lemma {:induction false} ChecksAppend(o: Oracle, fen: string, done: seq<string>, m: string)
    ensures Checks(o, fen, done + [m]) == Checks(o, fen, done) + (if o.givesCheck(fen, m) then [m] else [])
    decreases |done|
  {
    if done == [] {
      assert done + [m] == [m];
    } else {
      assert (done + [m])[1..] == done[1..] + [m];
      ChecksAppend(o, fen, done[1..], m);
    }
  }

  class CheckDetector {
    const initialFen: string
    const oracle: Oracle
    var checksInitialized: bool
    var checksOnPosition: Option<seq<string>>

    /** `__init__`: the checks are computed at once unless `getChecks` is false. */
    constructor (fen: string, getChecks: bool, o: Oracle)
      ensures initialFen == fen && oracle == o
      ensures checksInitialized == getChecks
      ensures checksOnPosition == if getChecks then Some(ChecksOf(o, fen)) else None
    {
      initialFen := fen;
      oracle := o;
      checksInitialized := false;
      checksOnPosition := None;
      new;
      ChecksOnPositionInitializer(getChecks);
    }

    /** `__checks_on_position_initializer`. */
    method ChecksOnPositionInitializer(getChecks: bool)
      modifies this
      ensures old(checksInitialized) || !getChecks ==> checksInitialized == old(checksInitialized) && checksOnPosition == old(checksOnPosition)
      ensures !old(checksInitialized) && getChecks ==> checksInitialized
      ensures !old(checksInitialized) && getChecks && old(checksOnPosition).None? ==> checksOnPosition == Some(ChecksOf(oracle, initialFen))
      ensures !old(checksInitialized) && getChecks && old(checksOnPosition).Some? ==> checksOnPosition == old(checksOnPosition)
    {
      if checksInitialized || !getChecks {
        return;
      }
      var _ := SetChecksOnPosition();
      checksInitialized := true;
    }

    /**
     * `set_checks_on_position`: each legal move is tried on a fresh game and
     * kept when it gives check; a list already computed is returned as it is.
     */
    method SetChecksOnPosition() returns (r: seq<string>)
      modifies this
      ensures checksInitialized == old(checksInitialized)
      ensures old(checksOnPosition).Some? ==> r == old(checksOnPosition).value
      ensures old(checksOnPosition).None? ==> r == ChecksOf(oracle, initialFen)
      ensures checksOnPosition == Some(r)
    {
      if checksOnPosition.Some? {
        return checksOnPosition.value;
      }
      var possibleChecks := CollectChecks(oracle, initialFen, oracle.legalMoves(initialFen));
      checksOnPosition := Some(possibleChecks);
      return possibleChecks;
    }
  }

  /** The loop of `set_checks_on_position`: try each move in turn and keep the checks. */
  method CollectChecks(o: Oracle, fen: string, legalMoves: seq<string>) returns (possibleChecks: seq<string>)
    ensures possibleChecks == Checks(o, fen, legalMoves)
  {
    possibleChecks := [];
    var k := 0;
    while k < |legalMoves|
      invariant 0 <= k <= |legalMoves|
      invariant possibleChecks == Checks(o, fen, legalMoves[..k])
    {
      var move := legalMoves[k];
      ChecksAppend(o, fen, legalMoves[..k], move);
      assert legalMoves[..k + 1] == legalMoves[..k] + [move];
      if o.givesCheck(fen, move) {
        possibleChecks := possibleChecks + [move];
      }
      k := k + 1;
    }
    assert legalMoves[..k] == legalMoves;
  }

  /** The detector's list is computed once: asking again gives the same list and changes nothing. */
  method ChecksAreCached(fen: string, o: Oracle) returns (first: seq<string>, second: seq<string>)
    ensures first == second == ChecksOf(o, fen)
  {
    var d := new CheckDetector(fen, true, o);
    first := d.SetChecksOnPosition();
    second := d.SetChecksOnPosition();
  }

  /** Without `get_checks_on_position` nothing is computed until asked for. */
  method ChecksOnDemand(fen: string, o: Oracle) returns (before: Option<seq<string>>, after: Option<seq<string>>)
    ensures before == None && after == Some(ChecksOf(o, fen))
  {
    var d := new CheckDetector(fen, false, o);
    before := d.checksOnPosition;
    var _ := d.SetChecksOnPosition();
    after := d.checksOnPosition;
  }
}
