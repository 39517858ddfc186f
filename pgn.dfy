/**
 * `PGN` (selene_chess_bot/pgn/pgn.py; the older pgn/pgn.py behaves the same
 * once its debugger hooks are set aside): movetext such as `1.e4 e5 2.Nf3`
 * replayed through a game, and a dictionary of move pairs written out as
 * movetext.
 *
 * What the board makes of a move is not modelled here: a `Referee` stands for
 * it, giving the report `Game.move_piece` works from (or the exception the
 * move raised) for each move in the game played so far.
 */
module Movetext {
  import opened Python
  import opened Notation
  import opened GameState
  import SanMove

  /** The board's verdict on a move, given the game so far. */
  type Referee = (Book, string) -> Result<Aftermath>

  /** One dictionary entry: its key, as `str()` writes it, and its list of moves. */
  datatype Entry = Entry(key: string, moves: seq<string>)

  /** What `convert_to_pgn` accepts: movetext, or a dictionary of move pairs in key order. */
  datatype Moves = Text(text: string) | Pairs(entries: seq<Entry>)

  // ------------------------------------------------------------ reading

  /** A '.'-free piece before the first '.' is cut off whole. */
  lemma SplitCons(a: string, c: char, rest: string)
    requires c !in a
    ensures Split(a + [c] + rest, c) == [a] + Split(rest, c)
  {
    var s := a + [c] + rest;
    assert forall j :: 0 <= j < |a| ==> s[j] == a[j];
    assert s[|a|] == c;
    var i := Find(s, c);
    assert i == |a|;
    assert s[..i] == a && s[i + 1..] == rest;
  }

  /** `moves.split('.')[1:]`: the text after each '.', up to the next one. */
  function Turns(text: string): (r: seq<string>)
    ensures |r| == |Split(text, '.')| - 1
    ensures forall i :: 0 <= i < |r| ==> '.' !in r[i]
  {
    Split(text, '.')[1..]
  }

  /** Text before the first '.' (a header, a first move number) is ignored. */
  lemma TurnsIgnorePrefix(prefix: string, rest: string)
    requires '.' !in prefix
    ensures Turns(prefix + "." + rest) == Split(rest, '.')
  {
    SplitCons(prefix, '.', rest);
  }

  /**
   * `_get_white_and_black_moves`: the text up to the first single space is
   * the white move, the text up to the second the black move, or "" when
   * there is no space.
   */
  function WhiteAndBlack(turn: string): (r: (string, string))
    ensures ' ' !in r.0 && ' ' !in r.1
    ensures ' ' !in turn ==> r == (turn, "")
  {
    var parts := Split(turn, ' ');
    (parts[0], if |parts| > 1 then parts[1] else "")
  }

  /** The pair written as `w b`, whatever follows after a space, is read back. */
  lemma WhiteAndBlackOf(w: string, b: string, rest: string)
    requires ' ' !in w && ' ' !in b
    ensures WhiteAndBlack(w + " " + b) == (w, b)
    ensures WhiteAndBlack(w + " " + b + " " + rest) == (w, b)
  {
    var one := w + " " + b;
    assert one == w + [' '] + b;
    SplitCons(w, ' ', b);
    assert Split(b, ' ') == [b];
    var parts := Split(one, ' ');
    assert parts == [w, b];
    var tail := b + [' '] + rest;
    var two := w + " " + b + " " + rest;
    assert two == w + [' '] + tail;
    SplitCons(w, ' ', tail);
    SplitCons(b, ' ', rest);
    var parts2 := Split(two, ' ');
    assert parts2 == [w] + ([b] + Split(rest, ' '));
    assert parts2[0] == w && parts2[1] == b;
  }

  /**
   * `_execute_move_with_debug`: `move_piece`, with a ValueError reported as
   * `False`. Any other exception escapes, and a finished game's refusal
   * (`move_piece` returning False) still counts as success.
   */
  function Execute(b: Book, move: string, referee: Referee): (r: (Book, Result<bool>))
    ensures r.1 == Ok(false) <==> !b.terminated && referee(b, move) == Err(ValueError)
    ensures r.1.Err? <==> !b.terminated && referee(b, move).Err? && referee(b, move).error != ValueError
    ensures r.1.Err? ==> r.1.error == referee(b, move).error
    ensures r.1 != Ok(true) || b.terminated ==> r.0 == b
    ensures r.1 == Ok(true) && !b.terminated ==> r.0 == AfterMove(b, move, referee(b, move).value)
  {
    var played := PlayMove(b, move, referee(b, move));
    if played.1 == Err(ValueError) then (played.0, Ok(false))
    else if played.1.Err? then played
    else (played.0, Ok(true))
  }

  /**
   * The loop of `check_if_pgn_is_valid` over the turns: `Ok(true)` when every
   * turn was played, `Ok(false)` when it stopped at the first move reported
   * invalid, or the exception that escaped. An empty black move is skipped.
   */
  function Replay(b: Book, turns: seq<string>, referee: Referee): (r: (Book, Result<bool>))
    decreases |turns|
  {
    if turns == [] then (b, Ok(true))
    else
      var s := OneTurn(b, turns[0], referee);
      if s.1 != Ok(true) then s else Replay(s.0, turns[1..], referee)
  }

  /**
   * One turn: the white move, then the black move unless it is "" or the
   * white move already stopped the loop.
   */
  function OneTurn(b: Book, turn: string, referee: Referee): (r: (Book, Result<bool>))
    ensures WhiteAndBlack(turn).1 == "" ==> r == Execute(b, WhiteAndBlack(turn).0, referee)
  {
    var (white, black) := WhiteAndBlack(turn);
    var w := Execute(b, white, referee);
    if w.1 != Ok(true) || black == "" then w else Execute(w.0, black, referee)
  }

  /** The rest of the turns after `first`, unless the replay of `first` already ended. */
  function Then(r: (Book, Result<bool>), more: seq<string>, referee: Referee): (Book, Result<bool>)
  {
    if r.1 == Ok(true) then Replay(r.0, more, referee) else r
  }

  /**
   * Replaying turns one after the other is replaying them together, and
   * nothing after a stop or an exception is played.
   */
  lemma {:induction false} ReplayAppend(b: Book, first: seq<string>, more: seq<string>, referee: Referee)
    ensures Replay(b, first + more, referee) == Then(Replay(b, first, referee), more, referee)
    decreases |first|
  {
    if first == [] {
      assert first + more == more;
    } else {
      assert (first + more)[0] == first[0];
      assert (first + more)[1..] == first[1..] + more;
      var s := OneTurn(b, first[0], referee);
      if s.1 == Ok(true) {
        ReplayAppend(s.0, first[1..], more, referee);
      }
    }
  }

  /** Once the replay stopped at an invalid move, later turns change nothing. */
  lemma StopsAtInvalid(b: Book, first: seq<string>, more: seq<string>, referee: Referee)
    requires Replay(b, first, referee).1 == Ok(false)
    ensures Replay(b, first + more, referee) == Replay(b, first, referee)
  {
    ReplayAppend(b, first, more, referee);
  }

  /**
   * In a finished game `move_piece` refuses every move without raising, so
   * every remaining turn passes as valid and the game is left as it was.
   */
  lemma {:induction false} FinishedGamePassesAll(b: Book, turns: seq<string>, referee: Referee)
    requires b.terminated
    ensures Replay(b, turns, referee) == (b, Ok(true))
    decreases |turns|
  {
    if turns != [] {
      FinishedGamePassesAll(b, turns[1..], referee);
    }
  }

  // ------------------------------------------------------------ writing

  /** The text `convert_dict_to_pgn` writes for one entry: `"{key}. {w} {b} "`. */
  function Line(key: string, white: string, black: string): string
  {
    key + ". " + white + " " + black + " "
  }

  /** Every entry has the two moves `moves[key][0]` and `moves[key][1]` read. */
  predicate Complete(entries: seq<Entry>)
  {
    forall i :: 0 <= i < |entries| ==> |entries[i].moves| >= 2
  }

  /** The movetext written for complete entries: their lines, in key order. */
  function MoveText(entries: seq<Entry>): (s: string)
    requires Complete(entries)
  {
    if entries == [] then ""
    else Line(entries[0].key, entries[0].moves[0], entries[0].moves[1]) + MoveText(entries[1..])
  }

  /** `text` in front of a successful result; an exception stays as it is. */
  function Prefixed(text: string, r: (Book, Result<string>)): (Book, Result<string>)
  {
    (r.0, if r.1.Err? then r.1 else Ok(text + r.1.value))
  }

  /**
   * `convert_dict_to_pgn`: for each entry in key order, read both moves (an
   * IndexError if the list is shorter), play them (any exception escapes,
   * a finished game's refusal is ignored) and write the entry's line.
   */
  function Convert(b: Book, entries: seq<Entry>, referee: Referee): (r: (Book, Result<string>))
    decreases |entries|
  {
    if entries == [] then (b, Ok(""))
    else
      var w := WriteEntry(b, entries[0], referee);
      if w.1.Err? then w else Prefixed(w.1.value, Convert(w.0, entries[1..], referee))
  }

  /** One entry: its line, once both moves were played without an exception. */
  function WriteEntry(b: Book, e: Entry, referee: Referee): (r: (Book, Result<string>))
    ensures r.1.Ok? <==> (|e.moves| >= 2 && PlayMove(b, e.moves[0], referee(b, e.moves[0])).1.Ok? &&
      var w := PlayMove(b, e.moves[0], referee(b, e.moves[0])).0;
      PlayMove(w, e.moves[1], referee(w, e.moves[1])).1.Ok?)
    ensures r.1.Ok? ==> r.1.value == Line(e.key, e.moves[0], e.moves[1])
  {
    if |e.moves| < 2 then (b, Err(IndexError))
    else
      var white := e.moves[0];
      var black := e.moves[1];
      var w := PlayMove(b, white, referee(b, white));
      if w.1.Err? then (w.0, Err(w.1.error))
      else
        var k := PlayMove(w.0, black, referee(w.0, black));
        if k.1.Err? then (k.0, Err(k.1.error))
        else (k.0, Ok(Line(e.key, white, black)))
  }

  lemma ConvertStep(b: Book, entries: seq<Entry>, referee: Referee)
    requires entries != [] && WriteEntry(b, entries[0], referee).1.Ok?
    ensures var w := WriteEntry(b, entries[0], referee);
      Convert(b, entries, referee) == Prefixed(w.1.value, Convert(w.0, entries[1..], referee))
  {
  }

  lemma PrefixedTwice(a: string, b: string, r: (Book, Result<string>))
    ensures Prefixed(a, Prefixed(b, r)) == Prefixed(a + b, r)
  {
    if r.1.Ok? {
      assert a + (b + r.1.value) == a + b + r.1.value;
    }
  }

  /**
   * What `convert_dict_to_pgn` returns, when it returns: the entries were all
   * complete, and the text is their lines in key order, whatever the game
   * made of the moves.
   */
  lemma {:induction false} ConvertWrites(b: Book, entries: seq<Entry>, referee: Referee)
    ensures Convert(b, entries, referee).1.Ok? ==>
      Complete(entries) && Convert(b, entries, referee).1.value == MoveText(entries)
    decreases |entries|
  {
    if entries != [] {
      var w := WriteEntry(b, entries[0], referee);
      if w.1.Ok? {
        ConvertWrites(w.0, entries[1..], referee);
        if Convert(b, entries, referee).1.Ok? {
          forall i | 0 <= i < |entries| ensures |entries[i].moves| >= 2 {
            if i > 0 {
              assert entries[i] == entries[1..][i - 1];
            }
          }
        }
      }
    }
  }

  /** An incomplete entry is an IndexError unless some earlier move raised first. */
  lemma {:induction false} IncompleteEntryRaises(b: Book, entries: seq<Entry>, referee: Referee)
    requires !Complete(entries)
    ensures Convert(b, entries, referee).1.Err?
  {
    ConvertWrites(b, entries, referee);
  }

  /** With complete entries and a board that raises on no move, the movetext is written. */
  lemma {:induction false} ConvertSucceeds(b: Book, entries: seq<Entry>, referee: Referee)
    requires Complete(entries)
    requires forall g: Book, m: string :: referee(g, m).Ok?
    ensures Convert(b, entries, referee).1 == Ok(MoveText(entries))
    decreases |entries|
  {
    if entries != [] {
      var w := WriteEntry(b, entries[0], referee);
      assert Complete(entries[1..]) by {
        forall i | 0 <= i < |entries[1..]| ensures |entries[1..][i].moves| >= 2 {
          assert entries[1..][i] == entries[i + 1];
        }
      }
      ConvertSucceeds(w.0, entries[1..], referee);
    }
  }

  // ------------------------------------------- reading back what was written

  /** A key or a move that can stand in movetext: not empty, no '.', no whitespace. */
  predicate Token(s: string)
  {
    s != "" && '.' !in s && NoSpace(s)
  }

  /** Complete entries whose keys and first two moves are tokens. */
  predicate Writable(entries: seq<Entry>)
  {
    Complete(entries) &&
    forall i :: 0 <= i < |entries| ==>
      Token(entries[i].key) && Token(entries[i].moves[0]) && Token(entries[i].moves[1])
  }

  lemma WritableTail(entries: seq<Entry>)
    requires Writable(entries) && entries != []
    ensures Writable(entries[1..])
  {
    forall i | 0 <= i < |entries[1..]|
      ensures |entries[1..][i].moves| >= 2 && Token(entries[1..][i].key)
      ensures Token(entries[1..][i].moves[0]) && Token(entries[1..][i].moves[1])
    {
      assert entries[1..][i] == entries[i + 1];
    }
  }

  /** The pairs the entries hold, `(moves[key][0], moves[key][1])` in key order. */
  function PairsOf(entries: seq<Entry>): (r: seq<(string, string)>)
    requires Complete(entries)
    ensures |r| == |entries|
    ensures forall i :: 0 <= i < |entries| ==> r[i] == (entries[i].moves[0], entries[i].moves[1])
  {
    if entries == [] then []
    else
      var rest := PairsOf(entries[1..]);
      assert forall i :: 1 <= i < |entries| ==> entries[i] == entries[1..][i - 1];
      [(entries[0].moves[0], entries[0].moves[1])] + rest
  }

  /**
   * The pieces `split('.')` makes of `lead + MoveText(entries)`: the lead runs
   * up to the first key's '.', and each turn is " w b " followed by the next
   * key, if any.
   */
  function Pieces(lead: string, entries: seq<Entry>): (r: seq<string>)
    requires Complete(entries)
    ensures |r| == |entries| + 1
    decreases |entries|
  {
    if entries == [] then [lead]
    else
      assert forall i :: 0 <= i < |entries[1..]| ==> entries[1..][i] == entries[i + 1];
      [lead + entries[0].key] + Pieces(" " + entries[0].moves[0] + " " + entries[0].moves[1] + " ", entries[1..])
  }

  lemma {:induction false} SplitMoveText(lead: string, entries: seq<Entry>)
    requires Writable(entries) && '.' !in lead
    ensures Split(lead + MoveText(entries), '.') == Pieces(lead, entries)
    decreases |entries|
  {
    if entries == [] {
      assert lead + MoveText(entries) == lead;
    } else {
      var e := entries[0];
      var next := " " + e.moves[0] + " " + e.moves[1] + " ";
      WritableTail(entries);
      assert Token(e.key) && Token(e.moves[0]) && Token(e.moves[1]);
      assert '.' !in next;
      assert lead + MoveText(entries) == (lead + e.key) + ['.'] + (next + MoveText(entries[1..]));
      SplitCons(lead + e.key, '.', next + MoveText(entries[1..]));
      SplitMoveText(next, entries[1..]);
    }
  }

  /** The turns `check_if_pgn_is_valid` cuts the written movetext into. */
  lemma TurnsOfMoveText(entries: seq<Entry>)
    requires Writable(entries)
    ensures |Turns(MoveText(entries))| == |entries|
    ensures entries == [] ==> Turns(MoveText(entries)) == []
    ensures entries != [] ==>
      Turns(MoveText(entries)) == Pieces(" " + entries[0].moves[0] + " " + entries[0].moves[1] + " ", entries[1..])
  {
    SplitMoveText("", entries);
    assert "" + MoveText(entries) == MoveText(entries);
  }

  /**
   * Each turn of the written movetext starts with a space, so the white move
   * `_get_white_and_black_moves` reads is "" and the black move is the white
   * one.
   */
  lemma WrittenTurnReadsShifted(w: string, b: string, key: string)
    requires Token(w) && Token(b)
    ensures WhiteAndBlack(" " + w + " " + b + " " + key) == ("", w)
  {
    assert " " + w + " " + b + " " + key == "" + [' '] + (w + [' '] + (b + " " + key));
    SplitCons("", ' ', w + [' '] + (b + " " + key));
    NoSpaceHasNoBlank(w);
    SplitCons(w, ' ', b + " " + key);
  }

  /** An empty move is refused by the move decoder with an IndexError, before any piece is looked at. */
  lemma EmptyMoveRaises(view: seq<seq<Cell>>, turn: Color)
    requires |view| == 8 && forall i :: 0 <= i < 8 ==> |view[i]| == 8
    ensures SanMove.ParseMove("", view, turn) == Err(IndexError)
  {
    assert SanMove.Stripped("") == "";
  }

  /**
   * The movetext `convert_dict_to_pgn` writes, given back to
   * `check_if_pgn_is_valid`, raises the IndexError of the empty move before
   * any move is played.
   */
  lemma WrittenTextRaises(b: Book, entries: seq<Entry>, referee: Referee)
    requires Writable(entries) && entries != [] && !b.terminated
    requires referee(b, "") == Err(IndexError)
    ensures Replay(b, Turns(MoveText(entries)), referee) == (b, Err(IndexError))
  {
    TurnsOfMoveText(entries);
    var e := entries[0];
    var key := if |entries| > 1 then entries[1].key else "";
    assert Turns(MoveText(entries))[0] == " " + e.moves[0] + " " + e.moves[1] + " " + key;
    WrittenTurnReadsShifted(e.moves[0], e.moves[1], key);
  }

  /**
   * The reading the writer's format calls for: `move.split()`, which skips
   * the space after the '.' and any run of spaces.
   */
  function WhiteAndBlackFixed(turn: string): (string, string)
  {
    var parts := SplitWhitespace(turn);
    (if |parts| > 0 then parts[0] else "", if |parts| > 1 then parts[1] else "")
  }

  /** On the compact form `w b …` both readings agree. */
  lemma FixedAgreesOnCompact(w: string, b: string, rest: string)
    requires w != "" && b != "" && NoSpace(w) && NoSpace(b)
    ensures WhiteAndBlack(w + " " + b + " " + rest) == (w, b)
    ensures WhiteAndBlackFixed(w + " " + b + " " + rest) == (w, b)
  {
    NoSpaceHasNoBlank(w);
    NoSpaceHasNoBlank(b);
    WhiteAndBlackOf(w, b, rest);
    TwoTokens(w, b, rest);
  }

  /** `split()` of `w b …` starts with `w` and `b`. */
  lemma TwoTokens(w: string, b: string, rest: string)
    requires w != "" && b != "" && NoSpace(w) && NoSpace(b)
    ensures SplitWhitespace(w + " " + b + " " + rest) == [w, b] + SplitWhitespace(rest)
  {
    SpacedAssoc(w, b, rest);
    TwoTokensNested(w, b, rest);
  }

  lemma TwoTokensNested(w: string, b: string, rest: string)
    requires w != "" && b != "" && NoSpace(w) && NoSpace(b)
    ensures SplitWhitespace(w + " " + (b + " " + rest)) == [w, b] + SplitWhitespace(rest)
  {
    SplitWhitespaceCons(b, rest);
    SplitWhitespaceCons(w, b + " " + rest);
  }

  lemma SpacedAssoc(w: string, b: string, rest: string)
    ensures w + " " + b + " " + rest == w + " " + (b + " " + rest)
  {
  }

  /** A leading space changes nothing for `split()`. */
  lemma LeadingSpace(x: string)
    ensures SplitWhitespace(" " + x) == SplitWhitespace(x)
  {
    assert (" " + x)[1..] == x;
    assert StripLeft(" " + x) == StripLeft(x);
  }

  lemma NoSpaceHasNoBlank(s: string)
    requires NoSpace(s)
    ensures ' ' !in s
  {
    assert IsSpace(' ');
  }

  /** The fixed reading of one written turn gives the entry's pair back. */
  lemma FixedReadsTurn(w: string, b: string, key: string)
    requires Token(w) && Token(b) && (key == "" || Token(key))
    ensures WhiteAndBlackFixed(" " + w + " " + b + " " + key) == (w, b)
  {
    var s := " " + w + " " + b + " " + key;
    assert s == " " + (w + " " + b + " " + key);
    LeadingSpace(w + " " + b + " " + key);
    TwoTokens(w, b, key);
  }

  /** The fixed reading of every turn. */
  function ReadFixed(turns: seq<string>): (r: seq<(string, string)>)
    ensures |r| == |turns| && forall i :: 0 <= i < |turns| ==> r[i] == WhiteAndBlackFixed(turns[i])
  {
    if turns == [] then [] else [WhiteAndBlackFixed(turns[0])] + ReadFixed(turns[1..])
  }

  /** Read with `split()`, the written movetext gives back every entry's pair, in key order. */
  lemma ReadsBack(entries: seq<Entry>)
    requires Writable(entries)
    ensures ReadFixed(Turns(MoveText(entries))) == PairsOf(entries)
  {
    TurnsOfMoveText(entries);
    if entries != [] {
      var turns := Turns(MoveText(entries));
      forall i | 0 <= i < |entries|
        ensures WhiteAndBlackFixed(turns[i]) == (entries[i].moves[0], entries[i].moves[1])
      {
        PieceAt(entries, i);
        var key := if i + 1 < |entries| then entries[i + 1].key else "";
        FixedReadsTurn(entries[i].moves[0], entries[i].moves[1], key);
      }
    }
  }

  /** The i-th turn of the written movetext: entry i's moves and the next key, if any. */
  lemma PieceAt(entries: seq<Entry>, i: nat)
    requires Writable(entries) && i < |entries|
    ensures |Turns(MoveText(entries))| == |entries|
    ensures Turns(MoveText(entries))[i] ==
      " " + entries[i].moves[0] + " " + entries[i].moves[1] + " " + (if i + 1 < |entries| then entries[i + 1].key else "")
  {
    TurnsOfMoveText(entries);
    PiecesAt(" " + entries[0].moves[0] + " " + entries[0].moves[1] + " ", entries, 0, i);
  }

  lemma {:induction false} PiecesAt(lead: string, entries: seq<Entry>, j: nat, i: nat)
    requires Complete(entries) && j <= i < |entries|
    requires lead == " " + entries[j].moves[0] + " " + entries[j].moves[1] + " "
    ensures Complete(entries[j + 1..])
    ensures Pieces(lead, entries[j + 1..])[i - j] ==
      " " + entries[i].moves[0] + " " + entries[i].moves[1] + " " + (if i + 1 < |entries| then entries[i + 1].key else "")
    decreases i - j
  {
    var tail := entries[j + 1..];
    assert Complete(tail) by {
      forall k | 0 <= k < |tail| ensures |tail[k].moves| >= 2 {
        assert tail[k] == entries[j + 1 + k];
      }
    }
    if i == j {
      if tail != [] {
        assert tail[0] == entries[j + 1];
      } else {
        assert lead + "" == lead;
      }
    } else {
      assert tail[0] == entries[j + 1];
      assert tail[1..] == entries[j + 2..];
      PiecesAt(" " + entries[j + 1].moves[0] + " " + entries[j + 1].moves[1] + " ", entries, j + 1, i);
    }
  }

  // ------------------------------------------------------------ the class

  /** What `convert_to_pgn` leaves and returns, on the game before it. */
  function Converted(b: Book, moves: Moves, referee: Referee): (r: (Book, Result<string>))
    ensures moves.Text? && r.1.Ok? ==> r.1.value == moves.text
    ensures moves.Pairs? && r.1.Ok? ==> Complete(moves.entries) && r.1.value == MoveText(moves.entries)
  {
    match moves
    case Text(text) =>
      var r := Replay(b, Turns(text), referee);
      (r.0, if r.1.Err? then Err(r.1.error) else Ok(text))
    case Pairs(entries) =>
      ConvertWrites(b, entries, referee);
      Convert(b, entries, referee)
  }

  class Pgn {
    const game: Game
    /** The board's verdict on each move of `game`. */
    const referee: Referee
    var pgn: string

    /** The game `__init__` starts from: turn 1, white to move, on the starting position's hash. */
    constructor (referee: Referee, startHash: BoardHash)
      ensures fresh(game) && this.referee == referee && pgn == ""
      ensures game.Snapshot() == NewBook(1, White, startHash)
    {
      game := new Game(1, White, startHash);
      this.referee := referee;
      pgn := "";
    }

    /** `_execute_move_with_debug` (the debugger's prompts are left out). */
    method ExecuteMoveWithDebug(move: string) returns (r: Result<bool>)
      modifies game
      ensures (game.Snapshot(), r) == Execute(old(game.Snapshot()), move, referee)
    {
      var moved := game.MovePiece(move, referee(game.Snapshot(), move));
      if moved == Err(ValueError) {
        return Ok(false);
      }
      if moved.Err? {
        return moved;
      }
      return Ok(true);
    }

    /**
     * One pass of the loop of `check_if_pgn_is_valid`: `Ok(false)` where it
     * breaks (the move not valid is reported on the console).
     */
    method PlayTurn(turn: string) returns (r: Result<bool>)
      modifies game
      ensures (game.Snapshot(), r) == OneTurn(old(game.Snapshot()), turn, referee)
    {
      var (whiteMove, blackMove) := WhiteAndBlack(turn);
      r := ExecuteMoveWithDebug(whiteMove);
      if r == Ok(true) && blackMove != "" {
        r := ExecuteMoveWithDebug(blackMove);
      }
    }

    /** `check_if_pgn_is_valid`: the input comes back unchanged unless an exception escapes. */
    method CheckIfPgnIsValid(moves: string) returns (r: Result<string>)
      modifies game
      ensures var after := Replay(old(game.Snapshot()), Turns(moves), referee);
        game.Snapshot() == after.0 && r == if after.1.Err? then Err(after.1.error) else Ok(moves)
    {
      var splitedMoves := Split(moves, '.')[1..];
      ghost var start := Replay(game.Snapshot(), splitedMoves, referee);
      var index := 0;
      while index < |splitedMoves|
        invariant index <= |splitedMoves|
        invariant start == Replay(game.Snapshot(), splitedMoves[index..], referee)
      {
        assert splitedMoves[index..][1..] == splitedMoves[index + 1..];
        var ok := PlayTurn(splitedMoves[index]);
        if ok.Err? {
          return Err(ok.error);
        }
        if !ok.value {
          break;
        }
        index := index + 1;
      }
      return Ok(moves);
    }

    /** The body of the loop of `convert_dict_to_pgn`, for one entry. */
    method WriteLine(entry: Entry) returns (r: Result<string>)
      modifies game
      ensures (game.Snapshot(), r) == WriteEntry(old(game.Snapshot()), entry, referee)
    {
      if |entry.moves| < 2 {
        return Err(IndexError);
      }
      var whiteMove := entry.moves[0];
      var blackMove := entry.moves[1];
      var played := game.MovePiece(whiteMove, referee(game.Snapshot(), whiteMove));
      if played.Err? {
        return Err(played.error);
      }
      played := game.MovePiece(blackMove, referee(game.Snapshot(), blackMove));
      if played.Err? {
        return Err(played.error);
      }
      return Ok(Line(entry.key, whiteMove, blackMove));
    }

    /** `convert_dict_to_pgn`. */
    method ConvertDictToPgn(moves: seq<Entry>) returns (r: Result<string>)
      modifies game
      ensures (game.Snapshot(), r) == Convert(old(game.Snapshot()), moves, referee)
    {
      ghost var start := Convert(game.Snapshot(), moves, referee);
      var text := "";
      var index := 0;
      assert moves[index..] == moves;
      assert Prefixed(text, start) == start by {
        if start.1.Ok? {
          assert text + start.1.value == start.1.value;
        }
      }
      while index < |moves|
        invariant index <= |moves|
        invariant start == Prefixed(text, Convert(game.Snapshot(), moves[index..], referee))
      {
        ghost var before := game.Snapshot();
        var line := WriteLine(moves[index]);
        if line.Err? {
          return line;
        }
        ConvertStep(before, moves[index..], referee);
        assert moves[index..][1..] == moves[index + 1..];
        PrefixedTwice(text, line.value, Convert(game.Snapshot(), moves[index + 1..], referee));
        text := text + line.value;
        index := index + 1;
      }
      assert text + "" == text;
      return Ok(text);
    }

    /** `convert_to_pgn`: movetext is checked and returned, a dictionary is written out. */
    method ConvertToPgn(moves: Moves) returns (r: Result<string>)
      modifies game
      ensures (game.Snapshot(), r) == Converted(old(game.Snapshot()), moves, referee)
    {
      match moves
      case Text(text) =>
        r := CheckIfPgnIsValid(text);
      case Pairs(entries) =>
        r := ConvertDictToPgn(entries);
    }
  }

  /**
   * `PGN(moves)`: a new game, then `convert_to_pgn`; an exception escaping it
   * escapes the constructor too.
   */
  method NewPgn(moves: Moves, referee: Referee, startHash: BoardHash) returns (r: Result<Pgn>)
    ensures var after := Converted(NewBook(1, White, startHash), moves, referee);
      (r.Err? <==> after.1.Err?) &&
      (r.Ok? ==> fresh(r.value) && r.value.referee == referee &&
                 r.value.game.Snapshot() == after.0 && r.value.pgn == after.1.value)
  {
    var p := new Pgn(referee, startHash);
    var text := p.ConvertToPgn(moves);
    if text.Err? {
      return Err(text.error);
    }
    p.pgn := text.value;
    return Ok(p);
  }
}
